/** The values that flow through a composition: solid definitions (supplied from
    outside), output handles, input-mapping placeholders and invocation records. */
module Handles {
  import opened Dicts

  /** A solid definition, reduced to what the composition core reads of it: its
      name and the names of its declared inputs and outputs, in declaration
      order. It is a class because the core compares definitions by object
      identity, not by value. */
  class SolidDefinition {
    const name: string
    const inputNames: seq<string>
    const outputNames: seq<string>

    constructor (name: string, inputNames: seq<string>, outputNames: seq<string>)
      ensures this.name == name && this.inputNames == inputNames && this.outputNames == outputNames
    {
      this.name := name;
      this.inputNames := inputNames;
      this.outputNames := outputNames;
    }
  }

  /** An input declared by the enclosing composite; `token` stands for whatever
      else distinguishes one declaration from another. */
  datatype InputDefinition = InputDefinition(name: string, token: nat)

  /** What `InputDefinition.mapping_to(solid_name, input_name)` returns: the
      composite's input routed to one input of one solid instance. */
  datatype InputMapping = InputMapping(definition: InputDefinition, solidName: string, inputName: string)

  /** One named output of one invoked solid instance. */
  datatype OutputHandle = OutputHandle(solidName: string, outputName: string)

  /** Placeholder passed in place of an upstream output: the input is fed by the
      enclosing composite's own input `inputDef`. */
  datatype InputMappingNode = InputMappingNode(inputDef: InputDefinition)

  /** The record of one invocation kept by the composition context. */
  datatype InvokedSolidNode = InvokedSolidNode(
    solidName: string,
    solidDef: SolidDefinition,
    inputBindings: Dict<OutputHandle>,
    inputMappings: Dict<InputMappingNode>)
}
