/** Vocabulary shared by the session models: optional values, 64-bit counter arithmetic,
    and the duplicate-free queues that the bounded memories are made of. */
module Common {

  datatype Option<+T> = None | Some(value: T)

  /** Prompt, permission, waiter and turn identifiers are only ever compared and hashed,
      so they are opaque tokens here. */
  type Id = nat

  const U64_MAX: nat := 0xFFFF_FFFF_FFFF_FFFF

  function SaturatingAdd(a: nat, b: nat): nat {
    if a + b <= U64_MAX then a + b else U64_MAX
  }

  function SaturatingSub(a: nat, b: nat): nat {
    if a >= b then a - b else 0
  }

  function WrappingAdd(a: nat, b: nat): nat {
    (a + b) % 0x1_0000_0000_0000_0000
  }

  function Max(a: int, b: int): int {
    if a >= b then a else b
  }

  predicate StartsWith(s: string, prefix: string) {
    |prefix| <= |s| && s[..|prefix|] == prefix
  }

  /** `position` followed by `remove`: drops the first occurrence, if any. */
  function RemoveFirst<T(==)>(s: seq<T>, x: T): seq<T> {
    if s == [] then []
    else if s[0] == x then s[1..]
    else [s[0]] + RemoveFirst(s[1..], x)
  }

  ghost predicate NoDup<T>(s: seq<T>) {
    forall i, j :: 0 <= i < j < |s| ==> s[i] != s[j]
  }

  ghost function Elements<T>(s: seq<T>): set<T> {
    set x | x in s
  }

  lemma NoDupTail<T>(s: seq<T>)
    requires NoDup(s) && s != []
    ensures NoDup(s[1..]) && s[0] !in s[1..]
  {
  }

  lemma NoDupCons<T>(x: T, s: seq<T>)
    requires NoDup(s) && x !in s
    ensures NoDup([x] + s)
  {
  }

  lemma {:induction false} RemoveFirstMembers<T>(s: seq<T>, x: T)
    ensures forall y :: y in RemoveFirst(s, x) ==> y in s
    ensures forall y :: y in s && y != x ==> y in RemoveFirst(s, x)
    ensures |RemoveFirst(s, x)| == if x in s then |s| - 1 else |s|
  {
    if s != [] && s[0] != x {
      RemoveFirstMembers(s[1..], x);
    }
  }

  lemma {:induction false} RemoveFirstNoDup<T>(s: seq<T>, x: T)
    requires NoDup(s)
    ensures NoDup(RemoveFirst(s, x)) && x !in RemoveFirst(s, x)
  {
    if s != [] {
      NoDupTail(s);
      if s[0] != x {
        RemoveFirstNoDup(s[1..], x);
        RemoveFirstMembers(s[1..], x);
        NoDupCons(s[0], RemoveFirst(s[1..], x));
      }
    }
  }

  lemma RemoveFirstElements<T>(s: seq<T>, x: T)
    requires NoDup(s)
    ensures NoDup(RemoveFirst(s, x))
    ensures Elements(RemoveFirst(s, x)) == Elements(s) - {x}
    ensures |RemoveFirst(s, x)| == if x in s then |s| - 1 else |s|
  {
    RemoveFirstMembers(s, x);
    RemoveFirstNoDup(s, x);
  }

  lemma {:induction false} RemoveFirstAbsent<T>(s: seq<T>, x: T)
    requires x !in s
    ensures RemoveFirst(s, x) == s
  {
    if s != [] {
      RemoveFirstAbsent(s[1..], x);
    }
  }

  lemma {:induction false} NoDupCardinality<T>(s: seq<T>)
    requires NoDup(s)
    ensures |Elements(s)| == |s|
  {
    if s != [] {
      NoDupCardinality(s[1..]);
      assert Elements(s) == {s[0]} + Elements(s[1..]);
    }
  }

  lemma {:induction false} SubsetCardinality<T>(a: set<T>, b: set<T>)
    requires a <= b
    ensures |a| <= |b|
  {
    if a != {} {
      var x :| x in a;
      SubsetCardinality(a - {x}, b - {x});
    }
  }

  /** The part of the queue behind the first occurrence of `x`. */
  function After<T(==)>(s: seq<T>, x: T): seq<T> {
    if s == [] then []
    else if s[0] == x then s[1..]
    else After(s[1..], x)
  }

  lemma {:induction false} AfterElements<T>(s: seq<T>, x: T)
    ensures Elements(After(s, x)) <= Elements(s)
    ensures x in s ==> |After(s, x)| < |s|
    ensures NoDup(s) ==> NoDup(After(s, x)) && x !in After(s, x)
  {
    if s != [] && s[0] != x {
      AfterElements(s[1..], x);
    }
  }

  lemma {:induction false} AfterAppend<T>(s: seq<T>, x: T, y: T)
    requires x in s
    ensures After(s + [y], x) == After(s, x) + [y]
  {
    if s[0] == x {
      assert (s + [y])[1..] == s[1..] + [y];
    } else {
      assert (s + [y])[1..] == s[1..] + [y];
      AfterAppend(s[1..], x, y);
    }
  }

  lemma {:induction false} AfterLast<T>(s: seq<T>, x: T)
    requires x !in s
    ensures After(s + [x], x) == []
  {
    if s != [] {
      assert (s + [x])[1..] == s[1..] + [x];
      AfterLast(s[1..], x);
    }
  }

  lemma {:induction false} AfterRemove<T>(s: seq<T>, x: T, y: T)
    requires NoDup(s) && x in s && x != y
    ensures x in RemoveFirst(s, y)
    ensures Elements(After(RemoveFirst(s, y), x)) == Elements(After(s, x)) - {y}
  {
    if s[0] == x {
      assert RemoveFirst(s, y) == [x] + RemoveFirst(s[1..], y);
      RemoveFirstElements(s[1..], y);
    } else if s[0] == y {
      assert y !in s[1..];
      AfterElements(s[1..], x);
      assert forall z :: z in After(s[1..], x) ==> z in Elements(After(s[1..], x));
      assert forall z :: z in s[1..] <==> z in Elements(s[1..]);
    } else {
      AfterRemove(s[1..], x, y);
    }
  }
}
