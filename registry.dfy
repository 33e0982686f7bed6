/** List operations both services run over their `cacheItems` arrays. */
module Registry {
  import opened Values

  /** No id occurs twice. */
  predicate Unique(ids: seq<string>) {
    forall i, j :: 0 <= i < j < |ids| ==> ids[i] != ids[j]
  }

  /** `cacheItems.find(i => i.id === id)`, as the position of the first match. */
  function FindIndex(ids: seq<string>, id: string): (r: Option<nat>)
    ensures r.Some? ==> r.value < |ids| && ids[r.value] == id
    ensures r.Some? ==> forall j :: 0 <= j < r.value ==> ids[j] != id
    ensures r.None? <==> id !in ids
  {
    if ids == [] then None
    else if ids[0] == id then Some(0)
    else
      match FindIndex(ids[1..], id)
      case None => None
      case Some(k) => Some(k + 1)
  }

  /** With unique ids the position of an id is the only one holding it. */
  lemma FindIndexUnique(ids: seq<string>, id: string, k: nat)
    requires Unique(ids) && k < |ids| && ids[k] == id
    ensures FindIndex(ids, id) == Some(k)
  {
  }

  /** `Array.prototype.filter`. */
  function Filter<T>(s: seq<T>, keep: T -> bool): (r: seq<T>)
    ensures |r| <= |s|
    ensures forall i :: 0 <= i < |r| ==> r[i] in s && keep(r[i])
    ensures forall i :: 0 <= i < |s| && keep(s[i]) ==> s[i] in r
  {
    if s == [] then []
    else if keep(s[0]) then [s[0]] + Filter(s[1..], keep)
    else Filter(s[1..], keep)
  }

  /** A filter that every element passes changes nothing. */
  lemma {:induction false} FilterKeepsAll<T>(s: seq<T>, keep: T -> bool)
    requires forall i :: 0 <= i < |s| ==> keep(s[i])
    ensures Filter(s, keep) == s
  {
    if s != [] {
      FilterKeepsAll(s[1..], keep);
      assert s == [s[0]] + s[1..];
    }
  }

  /** A filter that exactly the element at `k` fails removes that element and keeps
      the others in their order. */
  lemma {:induction false} FilterRemovesOne<T>(s: seq<T>, keep: T -> bool, k: nat)
    requires k < |s| && !keep(s[k])
    requires forall i :: 0 <= i < |s| && i != k ==> keep(s[i])
    ensures Filter(s, keep) == s[..k] + s[k + 1..]
  {
    if k == 0 {
      FilterKeepsAll(s[1..], keep);
    } else {
      FilterRemovesOne(s[1..], keep, k - 1);
      assert s[1..][..k - 1] == s[1..k];
      assert s[1..][k..] == s[k + 1..];
      assert s[..k] == [s[0]] + s[1..k];
    }
  }

  /** `s.map(item => item === a ? b : item)`. */
  function Replace<T(==)>(s: seq<T>, a: T, b: T): (r: seq<T>)
    ensures |r| == |s|
    ensures forall i :: 0 <= i < |s| ==> r[i] == if s[i] == a then b else s[i]
  {
    seq(|s|, i requires 0 <= i < |s| => if s[i] == a then b else s[i])
  }

  /** Replacing an element that occurs only at `k` is an update of position `k`;
      replacing one that does not occur changes nothing. */
  lemma ReplaceOnce<T>(s: seq<T>, a: T, b: T, k: nat)
    requires k < |s| && s[k] == a
    requires forall i :: 0 <= i < |s| && i != k ==> s[i] != a
    ensures Replace(s, a, b) == s[k := b]
  {
  }

  lemma ReplaceAbsent<T>(s: seq<T>, a: T, b: T)
    requires a !in s
    ensures Replace(s, a, b) == s
  {
  }
}
