/** Outcomes and the errors the composition core raises, as values. */
module Errors {

  datatype Option<T> = None | Some(value: T)

  /** Where an argument of a solid invocation came from: the position of a
      positional argument, or a keyword argument. */
  datatype Site = AtPosition(idx: nat) | ByKeyword

  /** Every way a composition can fail. The variants raised with a message carry
      the composition's source label and name, the solid's instance name and
      the details the message reports. */
  datatype Error =
    | NoActiveScope
    | EmptyStack
    | TooManyInputs(source: string, name: string, solidName: string, defNum: nat, argNum: nat)
    | MultiOutputNotUnpacked(source: string, name: string, solidName: string,
                             inputName: string, site: Site, options: seq<string>)
    | InvalidInputType(source: string, name: string, solidName: string,
                       inputName: string, site: Site, typeName: string)
    | DuplicateInvocation(source: string, name: string, solidName: string)
    | ConflictingDefinitions(defName: string)

  datatype Result<T> = Ok(value: T) | Err(error: Error)
}
