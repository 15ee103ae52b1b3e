/** Vocabulary shared by every part of the model: optional values, results of
    code that can raise, octets, and the task identifiers of the server. */
module Basics {

  datatype Option<+T> = None | Some(value: T)

  datatype Result<+T, +E> = Ok(value: T) | Err(error: E)

  type Byte = n: int | 0 <= n < 256

  type Bytes = seq<Byte>

  /** Task identifiers are 32-bit unsigned integers that wrap around. */
  const ID_SPACE: nat := 0x1_0000_0000

  type Id = n: nat | n < ID_SPACE

  ghost predicate Distinct<T>(s: seq<T>) {
    forall i, j :: 0 <= i < j < |s| ==> s[i] != s[j]
  }

  lemma {:induction false} DistinctCount<T>(s: seq<T>)
    requires Distinct(s)
    ensures |Elements(s)| == |s|
  {
    if s != [] {
      DistinctCount(s[1..]);
      assert Elements(s) == {s[0]} + Elements(s[1..]);
    }
  }

  /** `part` is what stands at these places of `whole`, in the order it stands there. */
  ghost predicate Picks<T>(part: seq<T>, whole: seq<T>, place: seq<nat>) {
    && |part| == |place|
    && (forall j :: 0 <= j < |place| ==> place[j] < |whole| && part[j] == whole[place[j]])
    && (forall j, k :: 0 <= j < k < |place| ==> place[j] < place[k])
  }

  /** One element more, picked or not. */
  lemma PicksMore<T>(part: seq<T>, whole: seq<T>, place: seq<nat>, last: bool) returns (more: seq<nat>)
    requires whole != [] && Picks(part, whole[..|whole| - 1], place)
    ensures Picks(part + if last then [whole[|whole| - 1]] else [], whole, more)
    ensures |more| == |place| + if last then 1 else 0
    ensures forall i: nat :: i in more <==> i in place || (last && i == |whole| - 1)
  {
    more := place + if last then [|whole| - 1] else [];
  }

  function Elements<T>(s: seq<T>): set<T> {
    set x | x in s
  }

  /** Which position of a sequence position `j` is after dropping position `i`. */
  function Origin(i: nat, j: nat): nat {
    if j < i then j else j + 1
  }

  function DropAt<T>(s: seq<T>, i: nat): (r: seq<T>)
    requires i < |s|
    ensures |r| == |s| - 1
    ensures forall j :: 0 <= j < |r| ==> r[j] == s[Origin(i, j)]
  {
    seq(|s| - 1, j requires 0 <= j < |s| - 1 => s[Origin(i, j)])
  }

  function Max(a: nat, b: nat): nat {
    if a < b then b else a
  }
}
