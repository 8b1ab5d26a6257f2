// The part of music21 the modelled code reads. music21 itself is not part of this model:
// an interval between two pitch names is an input of the model, given as a function.
module Music21 {
  import opened Wrappers

  /** The fields of a music21 Interval that the analyzers and experiments read. */
  datatype Interval = Interval(
    direction: int,               // interv.direction: -1, 0 or 1
    name: string,                 // interv.name, such as "M10"
    semiSimpleName: string,       // interv.semiSimpleName, such as "M3"
    genericDirected: int,         // interv.generic.directed
    genericSemiSimpleDirected: int, // interv.generic.semiSimpleDirected
    genericUndirected: nat,       // interv.generic.undirected
    simpleUndirected: nat)        // interv.generic.simpleUndirected

  /**
   * Interval(Note(lower), Note(upper)): the interval from the lower to the upper pitch
   * name, or None when music21 cannot read a pitch name and raises.
   */
  type IntervalOf = (string, string) -> Option<Interval>

  /** The token music21 and the indexers use for a rest. */
  const Rest := "Rest"
}
