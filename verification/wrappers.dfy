/** Failure-carrying return values standing in for the exceptions the library raises. */
module Wrappers {

  datatype Option<+T> = None | Some(value: T)

  /** The exceptions owllib raises, one constructor per cause. */
  datatype Error =
    | UriNotFound          // ValueError("URI not found in ontology.") from Ontology.convert
    | NoAssociatedOntology // ValueError("No associated ontology.") from an entity without ontology
    | NotImplemented       // NotImplementedError from the base Entity's parent/child hooks
    | NoUriAttribute       // AttributeError: convert gave nothing, or a Literal, and `.uri` was read

  datatype Result<+T> = Ok(value: T) | Err(error: Error)

  /** The outcome of an operation that returns nothing but may raise. */
  datatype Outcome = Pass | Fail(error: Error)
}
