/**
 * Drivers: the pluggable serialisation strategies a snapshot is bound to.
 *
 * A driver turns an actual value into the canonical text that is stored on
 * disk, names the file extension that text is stored under, and decides
 * whether a stored text still matches a fresh value. The concrete encodings
 * of the shipped drivers (a plain dump, JSON, XML) are not modelled: each
 * driver is a deterministic function given as data.
 */
module Drivers {

  /** What a driver's serialisation produces for one value. */
  datatype Serialization = Serialized(text: string) | Unserializable(reason: string)

  /** A driver: a deterministic encoding and the extension it is stored under. */
  datatype Driver<!V> = Driver(serialize: V -> Serialization, extension: string)

  /** The three drivers the package ships: the default dump driver, XML and JSON. */
  datatype BuiltinDrivers<!V> = BuiltinDrivers(varDriver: Driver<V>, xmlDriver: Driver<V>, jsonDriver: Driver<V>)

  /**
   * The result of matching a stored text against a fresh value: it matches,
   * it is an expectation failure carrying both representations, or the value
   * could not be serialised at all (an error that is not an expectation failure).
   */
  datatype MatchResult = Matched | Mismatch(expected: string, actual: string) | MatchError(reason: string)

  /** A driver's match: the stored text is the ground truth, compared with a fresh serialisation. */
  function Match<V>(d: Driver<V>, expected: string, actual: V): (r: MatchResult)
    ensures r.Matched? <==> d.serialize(actual) == Serialized(expected)
    ensures r.Mismatch? <==> d.serialize(actual).Serialized? && d.serialize(actual).text != expected
    ensures r.Mismatch? ==> r.expected == expected && r.actual == d.serialize(actual).text
    ensures r.MatchError? <==> d.serialize(actual).Unserializable?
    ensures r.MatchError? ==> r.reason == d.serialize(actual).reason
  {
    match d.serialize(actual)
    case Unserializable(reason) => MatchError(reason)
    case Serialized(text) => if text == expected then Matched else Mismatch(expected, text)
  }

  /** A value always matches its own serialisation. */
  lemma MatchesOwnSerialization<V>(d: Driver<V>, actual: V)
    requires d.serialize(actual).Serialized?
    ensures Match(d, d.serialize(actual).text, actual) == Matched
  {
  }
}
