/** Keys for exported definitions: names where they are free, numbered names otherwise. */
module PortableKeys {
  import Decimal
  import Text

  type Id = nat

  /** What a definition contributes to its key. */
  datatype Named = Named(id: Id, name: string)

  function Candidate(name: string, suffix: nat): string {
    name[..if |name| <= 90 then |name| else 90] + "-" + Decimal.Print(suffix)
  }

  lemma CandidateInjective(name: string, m: nat, n: nat)
    requires Candidate(name, m) == Candidate(name, n)
    ensures m == n
  {
    var stem := name[..if |name| <= 90 then |name| else 90] + "-";
    assert Candidate(name, m)[|stem|..] == Decimal.Print(m);
    assert Candidate(name, n)[|stem|..] == Decimal.Print(n);
    Decimal.PrintInjective(m, n);
  }

  /** The used keys that the search can still run into. */
  ghost function Ahead(name: string, used: set<string>, suffix: nat): set<string> {
    set key | key in used && exists n: nat :: suffix <= n && Candidate(name, n) == key
  }

  lemma AheadShrinks(name: string, used: set<string>, suffix: nat)
    requires Candidate(name, suffix) in used
    ensures Ahead(name, used, suffix + 1) < Ahead(name, used, suffix)
    ensures |Ahead(name, used, suffix + 1)| < |Ahead(name, used, suffix)|
  {
    var hit := Candidate(name, suffix);
    if hit in Ahead(name, used, suffix + 1) {
      var n: nat :| suffix + 1 <= n && Candidate(name, n) == hit;
      CandidateInjective(name, n, suffix);
    }
    assert hit in Ahead(name, used, suffix);
    Smaller(Ahead(name, used, suffix + 1), Ahead(name, used, suffix));
  }

  lemma {:induction false} Smaller(a: set<string>, b: set<string>)
    requires a < b
    ensures |a| < |b|
  {
    var x :| x in b && x !in a;
    if a == {} {
      assert |b| != 0;
    } else {
      var y :| y in a;
      assert a - {y} < b - {y} by {
        assert x in b - {y} && x !in a - {y};
      }
      Smaller(a - {y}, b - {y});
    }
  }

  lemma {:induction false} NoLarger(a: set<string>, b: set<string>)
    requires a <= b
    ensures |a| <= |b|
  {
    if a != b {
      Smaller(a, b);
    }
  }

  /** The numbered name with the smallest free number. The search ends: used keys are finite, candidates distinct. */
  function FirstFree(name: string, used: set<string>, suffix: nat): (n: nat)
    ensures suffix <= n <= suffix + |Ahead(name, used, suffix)|
    ensures Candidate(name, n) !in used
    ensures forall k :: suffix <= k < n ==> Candidate(name, k) in used
    decreases |Ahead(name, used, suffix)|
  {
    if Candidate(name, suffix) !in used then suffix
    else
      AheadShrinks(name, used, suffix);
      FirstFree(name, used, suffix + 1)
  }

  function KeyFor(name: string, used: set<string>): (key: string)
    ensures key !in used
  {
    if name !in used then name else Candidate(name, FirstFree(name, used, 2))
  }

  lemma SmallNumberIsShort(n: nat)
    requires n < 1000
    ensures |Decimal.Print(n)| <= 3
  {
    if n >= 100 {
      assert Decimal.Print(n) == Decimal.Print(n / 10) + [Decimal.DIGITS[n % 10]];
      assert Decimal.Print(n / 10) == Decimal.Print(n / 100) + [Decimal.DIGITS[n / 10 % 10]];
    }
  }

  lemma DigitsAreVisible(text: string)
    requires Decimal.AllDigits(text)
    ensures Text.NoControls(text)
  {
  }

  /** A key made from a valid name is a valid name, as long as few keys are in use. */
  lemma KeyIsValid(name: string, used: set<string>)
    requires Text.ValidName(name) && |used| <= 900
    ensures Text.ValidName(KeyFor(name, used))
  {
    if name in used {
      var n := FirstFree(name, used, 2);
      NoLarger(Ahead(name, used, 2), used);
      SmallNumberIsShort(n);
      DigitsAreVisible(Decimal.Print(n));
      assert '-' in Candidate(name, n) && !Text.IsWhitespace('-');
    }
  }

  /** `unique_keys`: each item in turn takes a key that is still free. */
  function UniqueKeys(items: seq<Named>, used: set<string>): map<Id, string> {
    if items == [] then map[]
    else
      var key := KeyFor(items[0].name, used);
      map[items[0].id := key] + UniqueKeys(items[1..], used + {key})
  }

  predicate DistinctIds(items: seq<Named>) {
    forall i, j :: 0 <= i < j < |items| ==> items[i].id != items[j].id
  }

  /** The keys in item order. */
  function KeyList(items: seq<Named>, used: set<string>): (keys: seq<string>)
    ensures |keys| == |items|
  {
    if items == [] then []
    else
      var key := KeyFor(items[0].name, used);
      [key] + KeyList(items[1..], used + {key})
  }

  lemma {:induction false} KeyListIsDistinct(items: seq<Named>, used: set<string>)
    ensures forall i :: 0 <= i < |items| ==> KeyList(items, used)[i] !in used
    ensures forall i, j :: 0 <= i < j < |items| ==> KeyList(items, used)[i] != KeyList(items, used)[j]
  {
    if items != [] {
      var key := KeyFor(items[0].name, used);
      var rest := KeyList(items[1..], used + {key});
      KeyListIsDistinct(items[1..], used + {key});
      assert forall i :: 0 < i < |items| ==> KeyList(items, used)[i] == rest[i - 1];
    }
  }

  lemma {:induction false} KeysAreListed(items: seq<Named>, used: set<string>, i: nat)
    requires DistinctIds(items) && i < |items|
    ensures items[i].id in UniqueKeys(items, used) && UniqueKeys(items, used)[items[i].id] == KeyList(items, used)[i]
  {
    var key := KeyFor(items[0].name, used);
    var rest := items[1..];
    assert forall k :: 0 <= k < |rest| ==> rest[k] == items[k + 1];
    if i > 0 {
      KeysAreListed(rest, used + {key}, i - 1);
    } else {
      KnownIds(rest, used + {key}, items[0].id);
    }
  }

  lemma {:induction false} KnownIds(items: seq<Named>, used: set<string>, id: Id)
    ensures id in UniqueKeys(items, used) <==> exists i :: 0 <= i < |items| && items[i].id == id
  {
    if items != [] {
      KnownIds(items[1..], used + {KeyFor(items[0].name, used)}, id);
      assert items == [items[0]] + items[1..];
      if exists i :: 0 <= i < |items| && items[i].id == id {
        var i :| 0 <= i < |items| && items[i].id == id;
        assert i > 0 ==> items[1..][i - 1].id == id;
      }
    }
  }

  /** Distinct definitions get distinct keys, and nothing else gets one. */
  lemma KeysAreDistinct(items: seq<Named>)
    requires DistinctIds(items)
    ensures forall id :: id in UniqueKeys(items, {}) <==> exists i :: 0 <= i < |items| && items[i].id == id
    ensures forall i, j :: 0 <= i < j < |items| ==> UniqueKeys(items, {})[items[i].id] != UniqueKeys(items, {})[items[j].id]
  {
    forall id: Id
      ensures id in UniqueKeys(items, {}) <==> exists i :: 0 <= i < |items| && items[i].id == id
    {
      KnownIds(items, {}, id);
    }
    KeyListIsDistinct(items, {});
    forall i | 0 <= i < |items|
      ensures UniqueKeys(items, {})[items[i].id] == KeyList(items, {})[i]
    {
      KeysAreListed(items, {}, i);
    }
  }

  lemma {:induction false} KeysAreValid(items: seq<Named>, used: set<string>)
    requires |used| + |items| <= 900
    requires forall i :: 0 <= i < |items| ==> Text.ValidName(items[i].name)
    ensures forall id :: id in UniqueKeys(items, used) ==> Text.ValidName(UniqueKeys(items, used)[id])
  {
    if items != [] {
      KeyIsValid(items[0].name, used);
      var key := KeyFor(items[0].name, used);
      assert forall i :: 0 <= i < |items[1..]| ==> items[1..][i] == items[i + 1];
      KeysAreValid(items[1..], used + {key});
    }
  }

  /** The inner loop of `unique_keys`. */
  method SearchKey(name: string, used: set<string>) returns (key: string)
    ensures key == KeyFor(name, used)
  {
    key := name;
    var suffix := 2;
    while key in used
      invariant suffix >= 2
      invariant suffix == 2 ==> key == name
      invariant suffix > 2 ==> key == Candidate(name, suffix - 1) && name in used
      invariant forall k :: 2 <= k < suffix - 1 ==> Candidate(name, k) in used
      decreases |Ahead(name, used, if suffix == 2 then 2 else suffix - 1)|, if suffix == 2 then 1 else 0
    {
      if suffix > 2 {
        AheadShrinks(name, used, suffix - 1);
      }
      key := Candidate(name, suffix);
      suffix := suffix + 1;
    }
    ghost var n := FirstFree(name, used, 2);
    assert suffix > 2 ==> n == suffix - 1;
  }

  lemma AssignOne(keys: map<Id, string>, items: seq<Named>, used: set<string>)
    requires items != []
    ensures var key := KeyFor(items[0].name, used);
      keys + UniqueKeys(items, used) == keys[items[0].id := key] + UniqueKeys(items[1..], used + {key})
  {
  }

  /** The outer loop of `unique_keys`. */
  method AssignKeys(items: seq<Named>) returns (keys: map<Id, string>)
    ensures keys == UniqueKeys(items, {})
  {
    keys := map[];
    var used: set<string> := {};
    var i := 0;
    while i < |items|
      invariant 0 <= i <= |items|
      invariant keys + UniqueKeys(items[i..], used) == UniqueKeys(items, {})
    {
      var key := SearchKey(items[i].name, used);
      AssignOne(keys, items[i..], used);
      assert items[i..][0] == items[i] && items[i..][1..] == items[i + 1..];
      keys := keys[items[i].id := key];
      used := used + {key};
      i := i + 1;
    }
    assert items[i..] == [];
  }
}
