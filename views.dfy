/** The children of the game's root layout, as the collision scan sees them, and the
    list operations the layout performs on them. */
module Views {

  datatype Option<T> = None | Some(value: T)

  /** What a child of the root layout is, as far as the game logic can tell them apart. */
  datatype Kind =
    | Obstacle(leftMargin: int)  // a falling obstacle, with the left margin it was spawned at
    | Image                      // an ImageView: the background, Tom, Jerry
    | Button                     // a Button: centre, right, left, restart, exit
    | Layout                     // the inflated end screen

  /** A view, identified by its id and its kind. */
  datatype View = View(id: int, kind: Kind)

  /** View.generateViewId hands out ids from 1 up to 0x00FFFFFF; the ids the build assigns
      to the views of a layout lie above that range. */
  const GeneratedIdLimit: int := 0x0100_0000

  predicate NoDuplicates<T(==)>(s: seq<T>)
  {
    forall i, j :: 0 <= i < j < |s| ==> s[i] != s[j]
  }

  /** Position of the first occurrence of `v` in `s`, as ViewGroup.indexOfChild finds it. */
  function IndexOf<T(==)>(s: seq<T>, v: T): (r: Option<nat>)
    ensures r.None? <==> v !in s
    ensures r.Some? ==> r.value < |s| && s[r.value] == v
    ensures r.Some? ==> forall k :: 0 <= k < r.value ==> s[k] != v
  {
    if |s| == 0 then None
    else if s[0] == v then Some(0)
    else match IndexOf(s[1..], v)
      case None => None
      case Some(i) => Some(i + 1)
  }

  /** `s` with the first occurrence of `v` taken out, as ViewGroup.removeView does it;
      removing a view that is not a child changes nothing. */
  function Remove<T(==)>(s: seq<T>, v: T): (r: seq<T>)
    ensures v !in s ==> r == s
    ensures v in s ==> |r| == |s| - 1
    ensures multiset(r) == multiset(s) - multiset{v}
  {
    match IndexOf(s, v)
    case None => s
    case Some(i) =>
      assert s == s[..i] + [s[i]] + s[i + 1..];
      s[..i] + s[i + 1..]
  }

  /** Removing a child from a list without duplicates takes out that child and no other,
      and keeps the list free of duplicates. */
  lemma RemoveOnlyThatChild<T>(s: seq<T>, v: T)
    requires NoDuplicates(s)
    ensures NoDuplicates(Remove(s, v))
    ensures v !in Remove(s, v)
    ensures forall w :: w != v ==> (w in Remove(s, v) <==> w in s)
  {
    var r := Remove(s, v);
    match IndexOf(s, v)
    case None =>
    case Some(k) =>
      assert r == s[..k] + s[k + 1..];
      // position p of r holds what position p (before k) or p + 1 (from k on) of s holds
      forall p | 0 <= p < |r| ensures r[p] == s[if p < k then p else p + 1] { }
      forall i, j | 0 <= i < j < |r| ensures r[i] != r[j] {
        assert r[i] == s[if i < k then i else i + 1];
        assert r[j] == s[if j < k then j else j + 1];
      }
      forall p | 0 <= p < |r| ensures r[p] != v {
        assert r[p] == s[if p < k then p else p + 1] && s[k] == v;
      }
      forall w | w != v && w in s ensures w in r {
        var q :| 0 <= q < |s| && s[q] == w;
        assert q != k;
        assert r[if q < k then q else q - 1] == w;
      }
  }
}
