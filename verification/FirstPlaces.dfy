/** The order in which the elements of a list are first used. */
module FirstPlaces {
  /** The length of the list when the element is not in it. */
  function FirstPlace<T(==)>(x: T, s: seq<T>): (k: nat)
    ensures k <= |s| && (k < |s| <==> x in s) && (k < |s| ==> s[k] == x)
    ensures forall i | 0 <= i < k :: s[i] != x
  {
    if s == [] || s[0] == x then 0 else 1 + FirstPlace(x, s[1..])
  }

  /** The elements stand in the order in which `all` first uses them; in particular each stands once. */
  predicate InFirstUseOrder<T(==)>(s: seq<T>, all: seq<T>) {
    forall i, j | 0 <= i < j < |s| :: FirstPlace(s[i], all) < FirstPlace(s[j], all)
  }

  lemma PlaceIs<T>(x: T, s: seq<T>, k: nat)
    requires k < |s| && s[k] == x && forall i | 0 <= i < k :: s[i] != x
    ensures FirstPlace(x, s) == k
  {
  }

  /** More at the end changes no first place, and a new element comes first in the addition. */
  lemma PlaceInMore<T>(x: T, s: seq<T>, y: T)
    ensures x in s ==> FirstPlace(x, s + [y]) == FirstPlace(x, s)
    ensures y !in s ==> FirstPlace(y, s + [y]) == |s|
  {
    if x in s {
      PlaceIs(x, s + [y], FirstPlace(x, s));
    }
    if y !in s {
      PlaceIs(y, s + [y], |s|);
    }
  }

  lemma OrderWithLast<T>(s: seq<T>, all: seq<T>, y: T)
    requires InFirstUseOrder(s, all) && forall x | x in s :: x in all
    ensures InFirstUseOrder(s, all + [y])
    ensures y !in all ==> InFirstUseOrder(s + [y], all + [y])
  {
    forall i | 0 <= i < |s|
      ensures FirstPlace(s[i], all + [y]) == FirstPlace(s[i], all) < |all|
    {
      PlaceInMore(s[i], all, y);
    }
    PlaceInMore(y, all, y);
  }
}
