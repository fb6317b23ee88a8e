/** The multi-select toggle both wizard steps use on their lists of labels:
    `list.includes(x) ? list.filter(y => y !== x) : [...list, x]`. */
module Selection {

  predicate NoDuplicates(s: seq<string>) {
    forall i, j :: 0 <= i < j < |s| ==> s[i] != s[j]
  }

  /** `s.filter(y => y !== x)`. */
  function Remove(s: seq<string>, x: string): seq<string>
    decreases |s|
  {
    if s == [] then []
    else if s[0] == x then Remove(s[1..], x)
    else [s[0]] + Remove(s[1..], x)
  }

  function Toggle(s: seq<string>, x: string): seq<string> {
    if x in s then Remove(s, x) else s + [x]
  }

  /** Filtering keeps exactly the other labels. */
  lemma {:induction false} RemoveMembers(s: seq<string>, x: string)
    ensures forall y :: y in Remove(s, x) <==> y in s && y != x
    ensures |Remove(s, x)| <= |s|
    decreases |s|
  {
    if s != [] {
      RemoveMembers(s[1..], x);
      assert s == [s[0]] + s[1..];
    }
  }

  /** Filtering out a label that is not there changes nothing. */
  lemma {:induction false} RemoveAbsent(s: seq<string>, x: string)
    requires x !in s
    ensures Remove(s, x) == s
    decreases |s|
  {
    if s != [] {
      assert s[0] != x;
      RemoveAbsent(s[1..], x);
      assert s == [s[0]] + s[1..];
    }
  }

  /** On a list without duplicates, filtering out the label at position i removes exactly that
      position and keeps the others in their order. */
  lemma {:induction false} RemoveAt(s: seq<string>, i: int)
    requires NoDuplicates(s) && 0 <= i < |s|
    ensures Remove(s, s[i]) == s[..i] + s[i + 1..]
    decreases |s|
  {
    var x := s[i];
    if i == 0 {
      assert x !in s[1..] by {
        forall k | 0 <= k < |s[1..]| ensures s[1..][k] != x { assert s[1..][k] == s[k + 1]; }
      }
      RemoveAbsent(s[1..], x);
    } else {
      assert s[0] != x;
      var t := s[1..];
      assert NoDuplicates(t) by {
        forall a, b | 0 <= a < b < |t| ensures t[a] != t[b] { assert t[a] == s[a + 1] && t[b] == s[b + 1]; }
      }
      assert t[i - 1] == x;
      RemoveAt(t, i - 1);
      assert s[..i] == [s[0]] + t[..i - 1];
      assert s[i + 1..] == t[i..];
    }
  }

  /** Filtering keeps a list free of duplicates. */
  lemma {:induction false} RemoveKeepsNoDuplicates(s: seq<string>, x: string)
    requires NoDuplicates(s)
    ensures NoDuplicates(Remove(s, x))
    decreases |s|
  {
    if s != [] {
      var t := s[1..];
      assert NoDuplicates(t) by {
        forall a, b | 0 <= a < b < |t| ensures t[a] != t[b] { assert t[a] == s[a + 1] && t[b] == s[b + 1]; }
      }
      RemoveKeepsNoDuplicates(t, x);
      if s[0] != x {
        RemoveMembers(t, x);
        assert s[0] !in t by {
          forall k | 0 <= k < |t| ensures t[k] != s[0] { assert t[k] == s[k + 1]; }
        }
        var r := Remove(t, x);
        forall a, b | 0 <= a < b < |[s[0]] + r| ensures ([s[0]] + r)[a] != ([s[0]] + r)[b] {
          if a == 0 { assert ([s[0]] + r)[b] == r[b - 1]; assert r[b - 1] in r; }
          else { assert ([s[0]] + r)[a] == r[a - 1] && ([s[0]] + r)[b] == r[b - 1]; }
        }
      }
    }
  }

  /** Toggling flips the membership of the toggled label and no other. */
  lemma ToggleMembers(s: seq<string>, x: string)
    ensures x in Toggle(s, x) <==> x !in s
    ensures forall y :: y != x ==> (y in Toggle(s, x) <==> y in s)
  {
    RemoveMembers(s, x);
  }

  /** Toggling an unselected label appends it at the end. */
  lemma ToggleAppends(s: seq<string>, x: string)
    requires x !in s
    ensures Toggle(s, x) == s + [x]
  {
  }

  /** Toggling the selected label at position i removes it and keeps the rest in order. */
  lemma ToggleRemovesAt(s: seq<string>, i: int)
    requires NoDuplicates(s) && 0 <= i < |s|
    ensures Toggle(s, s[i]) == s[..i] + s[i + 1..]
  {
    RemoveAt(s, i);
  }

  /** Toggling keeps the list free of duplicates. */
  lemma ToggleKeepsNoDuplicates(s: seq<string>, x: string)
    requires NoDuplicates(s)
    ensures NoDuplicates(Toggle(s, x))
  {
    if x in s {
      RemoveKeepsNoDuplicates(s, x);
    } else {
      var r := s + [x];
      forall a, b | 0 <= a < b < |r| ensures r[a] != r[b] {
        if b == |s| { assert r[a] == s[a]; assert s[a] in s; }
        else { assert r[a] == s[a] && r[b] == s[b]; }
      }
    }
  }

  /** Toggling an unselected label twice leaves the list exactly as it was. */
  lemma ToggleTwiceAbsent(s: seq<string>, x: string)
    requires NoDuplicates(s) && x !in s
    ensures Toggle(Toggle(s, x), x) == s
  {
    ToggleKeepsNoDuplicates(s, x);
    var r := s + [x];
    assert r[|s|] == x && x in r;
    assert r[..|s|] == s && r[|s| + 1..] == [];
    RemoveAt(r, |s|);
  }

  /** Toggling a selected label twice moves it to the end: the same labels stay selected,
      the others in their order. */
  lemma ToggleTwicePresent(s: seq<string>, x: string)
    requires NoDuplicates(s) && x in s
    ensures Toggle(Toggle(s, x), x) == Remove(s, x) + [x]
    ensures multiset(Toggle(Toggle(s, x), x)) == multiset(s)
  {
    var r := Remove(s, x);
    RemoveMembers(s, x);
    assert x !in r;
    assert Toggle(s, x) == r;
    assert Toggle(r, x) == r + [x];
    var i :| 0 <= i < |s| && s[i] == x;
    RemoveAt(s, i);
    MultisetSplit(s, i);
  }

  lemma MultisetSplit(s: seq<string>, i: int)
    requires 0 <= i < |s|
    ensures multiset(s[..i] + s[i + 1..] + [s[i]]) == multiset(s)
  {
    assert s == s[..i] + [s[i]] + s[i + 1..];
  }

  /** Toggling twice always yields a list without duplicates. */
  lemma ToggleTwiceNoDuplicates(s: seq<string>, x: string)
    requires NoDuplicates(s)
    ensures NoDuplicates(Toggle(Toggle(s, x), x))
  {
    ToggleKeepsNoDuplicates(s, x);
    ToggleKeepsNoDuplicates(Toggle(s, x), x);
  }
}
