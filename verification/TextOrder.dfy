/** The order Python's `sorted` uses on text: lexicographic by code point. */
module TextOrder {

  predicate Less(a: string, b: string) {
    if b == "" then false
    else if a == "" then true
    else a[0] < b[0] || (a[0] == b[0] && Less(a[1..], b[1..]))
  }

  lemma {:induction false} Irreflexive(a: string)
    ensures !Less(a, a)
  {
    if a != "" {
      Irreflexive(a[1..]);
    }
  }

  lemma {:induction false} Transitive(a: string, b: string, c: string)
    requires Less(a, b) && Less(b, c)
    ensures Less(a, c)
  {
    if a != "" && a[0] == b[0] == c[0] {
      Transitive(a[1..], b[1..], c[1..]);
    }
  }

  lemma {:induction false} Asymmetric(a: string, b: string)
    requires Less(a, b)
    ensures !Less(b, a)
  {
    if Less(b, a) {
      Transitive(a, b, a);
      Irreflexive(a);
    }
  }

  lemma {:induction false} Trichotomy(a: string, b: string)
    ensures Less(a, b) || a == b || Less(b, a)
  {
    if a != "" && b != "" && a[0] == b[0] {
      Trichotomy(a[1..], b[1..]);
      assert a == [a[0]] + a[1..] && b == [b[0]] + b[1..];
    }
  }

  /** Every event id of a run starts with the same run prefix, which does not disturb the order. */
  lemma {:induction false} SharedPrefix(p: string, a: string, b: string)
    ensures Less(p + a, p + b) <==> Less(a, b)
  {
    if p == "" {
      assert p + a == a && p + b == b;
    } else {
      assert (p + a)[1..] == p[1..] + a && (p + b)[1..] == p[1..] + b;
      SharedPrefix(p[1..], a, b);
    }
  }

  ghost predicate Ascending(keys: seq<string>) {
    forall i, j | 0 <= i < j < |keys| :: Less(keys[i], keys[j])
  }

  function InsertKey(k: string, keys: seq<string>): seq<string> {
    if keys == [] then [k]
    else if k == keys[0] then keys
    else if Less(k, keys[0]) then [k] + keys
    else [keys[0]] + InsertKey(k, keys[1..])
  }

  lemma {:induction false} InsertKeyMembers(k: string, keys: seq<string>)
    ensures forall x :: x in InsertKey(k, keys) <==> x == k || x in keys
  {
    if keys != [] {
      InsertKeyMembers(k, keys[1..]);
    }
  }

  lemma {:induction false} InsertKeyAscending(k: string, keys: seq<string>)
    requires Ascending(keys)
    ensures Ascending(InsertKey(k, keys))
  {
    if keys != [] && k != keys[0] {
      if Less(k, keys[0]) {
        forall j | 0 < j < |keys| ensures Less(k, keys[j]) {
          Transitive(k, keys[0], keys[j]);
        }
      } else {
        Trichotomy(k, keys[0]);
        InsertKeyAscending(k, keys[1..]);
        InsertKeyMembers(k, keys[1..]);
        var rest := InsertKey(k, keys[1..]);
        forall j | 0 <= j < |rest| ensures Less(keys[0], rest[j]) {
          assert rest[j] in rest;
        }
      }
    }
  }

  /** `sorted(set(keys))`. */
  function SortedDistinct(keys: seq<string>): seq<string> {
    if keys == [] then [] else InsertKey(keys[0], SortedDistinct(keys[1..]))
  }

  lemma {:induction false} SortedDistinctMembers(keys: seq<string>)
    ensures forall x :: x in SortedDistinct(keys) <==> x in keys
  {
    if keys != [] {
      SortedDistinctMembers(keys[1..]);
      InsertKeyMembers(keys[0], SortedDistinct(keys[1..]));
    }
  }

  lemma {:induction false} SortedDistinctAscending(keys: seq<string>)
    ensures Ascending(SortedDistinct(keys))
  {
    if keys != [] {
      SortedDistinctAscending(keys[1..]);
      InsertKeyAscending(keys[0], SortedDistinct(keys[1..]));
    }
  }

  lemma {:induction false} AscendingHasNoRepeats(keys: seq<string>, i: nat, j: nat)
    requires Ascending(keys) && i < |keys| && j < |keys| && keys[i] == keys[j]
    ensures i == j
  {
    Irreflexive(keys[i]);
  }

  /** An ascending list is determined by the set of its keys. */
  lemma {:induction false} AscendingExtensional(s: seq<string>, t: seq<string>)
    requires Ascending(s) && Ascending(t)
    requires forall x :: x in s <==> x in t
    ensures s == t
  {
    assert s != [] ==> s[0] in t;
    assert t != [] ==> t[0] in s;
    if s != [] {
      HeadIsLeast(s, t);
      forall x ensures x in s[1..] <==> x in t[1..] {
        TailMember(s, x);
        TailMember(t, x);
      }
      AscendingExtensional(s[1..], t[1..]);
      assert s == [s[0]] + s[1..] && t == [t[0]] + t[1..];
    }
  }

  lemma {:induction false} HeadIsLeast(s: seq<string>, t: seq<string>)
    requires Ascending(s) && Ascending(t) && s != [] && t != []
    requires forall x :: x in s <==> x in t
    ensures s[0] == t[0]
  {
    if s[0] != t[0] {
      assert s[0] in t && t[0] in s;
      var i :| 0 <= i < |t| && t[i] == s[0];
      var j :| 0 <= j < |s| && s[j] == t[0];
      Asymmetric(s[0], t[0]);
    }
  }

  lemma {:induction false} TailMember(s: seq<string>, x: string)
    requires Ascending(s) && s != []
    ensures x in s[1..] <==> x in s && x != s[0]
  {
    Irreflexive(s[0]);
  }
}
