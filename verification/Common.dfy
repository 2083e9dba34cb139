// Vocabulary shared by the modules of the model.

module Common {

  datatype Option<+T> = None | Some(value: T)

  // Identifiers (UUIDs in the source) are only ever compared for equality.
  type Id = nat

  // Instants, in microseconds, on the one clock that the database and the application share.
  type Time = int

  const SECOND: Time := 1_000_000

  type Scope = string

  type ClientId = string

  datatype ActorKind = User | ServiceAccount | Device

  // Who a token speaks for: a person, a service account or an enrolled device.
  datatype Actor = Actor(kind: ActorKind, id: Id)

  // The pieces of a text between the occurrences of a separator.
  function SplitAt<T(==)>(text: seq<T>, separator: T): (parts: seq<seq<T>>)
    ensures |parts| > 0
  {
    if text == [] then [[]]
    else if text[0] == separator then [[]] + SplitAt(text[1..], separator)
    else
      var rest := SplitAt(text[1..], separator);
      [[text[0]] + rest[0]] + rest[1..]
  }

  lemma {:induction false} SplitAfterFirst<T>(first: seq<T>, separator: T, rest: seq<T>)
    requires forall i :: 0 <= i < |first| ==> first[i] != separator
    ensures SplitAt(first, separator) == [first]
    ensures SplitAt(first + [separator] + rest, separator) == [first] + SplitAt(rest, separator)
  {
    if first == [] {
      assert first + [separator] + rest == [separator] + rest;
      assert ([separator] + rest)[1..] == rest;
    } else {
      SplitAfterFirst(first[1..], separator, rest);
      assert first == [first[0]] + first[1..];
      assert (first + [separator] + rest)[1..] == first[1..] + [separator] + rest;
    }
  }

  predicate Chronological(times: seq<Time>) {
    forall i, j :: 0 <= i < j < |times| ==> times[i] <= times[j]
  }
}
