/** The record the planet API stores, and the records it starts with. */
module Planets {

  datatype Option<T> = None | Some(value: T)

  /** One stored planet: an integer id and a name. */
  datatype Planet = Planet(id: int, name: string)

  /** The largest integer a JavaScript number holds exactly, 2^53 - 1. */
  const MaxSafeInteger: int := 9007199254740991

  /** What the create schema guarantees of every record it lets in:
      a safe integer id and a non-empty name. */
  predicate WellFormed(p: Planet)
  {
    -MaxSafeInteger <= p.id <= MaxSafeInteger && p.name != ""
  }

  /** The collection every process starts with. */
  const Seed: seq<Planet> := [Planet(1, "Earth"), Planet(2, "Mars")]
}
