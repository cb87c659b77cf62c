/** JSON values as serde_json holds them: the keys of an object are ordered by their code points. */
module Json {

  datatype Json =
    | Null
    | Bool(b: bool)
    | Num(n: real)
    | Str(s: string)
    | Arr(items: seq<Json>)
    | Obj(fields: map<string, Json>)

  type Fields = map<string, Json>

  /** `a` comes strictly before `b`. */
  predicate Before(a: string, b: string) {
    if b == [] then false
    else if a == [] then true
    else if a[0] != b[0] then a[0] < b[0]
    else Before(a[1..], b[1..])
  }

  /** `a` and `b` agree up to position k, where `a` ends or has the smaller character. */
  predicate FirstDifference(a: string, b: string, k: nat) {
    k <= |a| && k < |b| && a[..k] == b[..k] && (k == |a| || a[k] < b[k])
  }

  lemma {:induction false} BeforeDiffers(a: string, b: string) returns (k: nat)
    requires Before(a, b)
    ensures FirstDifference(a, b, k)
  {
    if a == [] || a[0] != b[0] { return 0; }
    k := BeforeDiffers(a[1..], b[1..]);
    assert a[..k + 1] == [a[0]] + a[1..][..k] && b[..k + 1] == [b[0]] + b[1..][..k];
    k := k + 1;
  }

  lemma {:induction false} DiffersBefore(a: string, b: string, k: nat)
    requires FirstDifference(a, b, k)
    ensures Before(a, b)
  {
    if k > 0 {
      assert a[0] == a[..k][0] && b[0] == b[..k][0];
      assert a[1..][..k - 1] == a[..k][1..] && b[1..][..k - 1] == b[..k][1..];
      DiffersBefore(a[1..], b[1..], k - 1);
    }
  }

  /** Keys are ordered as words in a dictionary are. */
  lemma {:induction false} BeforeExactly(a: string, b: string)
    ensures Before(a, b) <==> exists k: nat :: FirstDifference(a, b, k)
  {
    if Before(a, b) {
      var k := BeforeDiffers(a, b);
    }
    if k: nat :| FirstDifference(a, b, k) { DiffersBefore(a, b, k); }
  }

  lemma {:induction false} BeforeTotal(a: string, b: string)
    ensures a == b || Before(a, b) || Before(b, a)
  {
    if a != [] && b != [] && a[0] == b[0] {
      BeforeTotal(a[1..], b[1..]);
      if a[1..] == b[1..] {
        assert a == [a[0]] + a[1..] == [b[0]] + b[1..] == b;
      }
    }
  }

  lemma {:induction false} BeforeAsymmetric(a: string, b: string)
    ensures !(Before(a, b) && Before(b, a))
  {
    if a != [] && b != [] && a[0] == b[0] {
      BeforeAsymmetric(a[1..], b[1..]);
    }
  }

  lemma {:induction false} BeforeTransitive(a: string, b: string, c: string)
    requires Before(a, b) && Before(b, c)
    ensures Before(a, c)
  {
    if a != [] && a[0] == b[0] == c[0] {
      BeforeTransitive(a[1..], b[1..], c[1..]);
    }
  }

  predicate IsFirst(k: string, keys: set<string>) {
    k in keys && forall other | other in keys :: other == k || Before(k, other)
  }

  lemma {:induction false} FirstExists(keys: set<string>) returns (first: string)
    requires keys != {}
    ensures IsFirst(first, keys)
  {
    var k :| k in keys;
    var rest := keys - {k};
    if rest == {} {
      assert keys == {k};
      first := k;
    } else {
      var f := FirstExists(rest);
      BeforeTotal(k, f);
      first := if Before(k, f) then k else f;
      forall other | other in keys ensures other == first || Before(first, other) {
        if other != k && other != f && first == k {
          BeforeTransitive(k, f, other);
        }
      }
    }
  }

  lemma OneFirst(keys: set<string>, a: string, b: string)
    requires IsFirst(a, keys) && IsFirst(b, keys)
    ensures a == b
  {
    BeforeAsymmetric(a, b);
  }

  lemma FirstIsUnique(keys: set<string>)
    requires keys != {}
    ensures exists k :: IsFirst(k, keys)
    ensures forall a, b | IsFirst(a, keys) && IsFirst(b, keys) :: a == b
  {
    var k := FirstExists(keys);
    forall a, b | IsFirst(a, keys) && IsFirst(b, keys) ensures a == b { OneFirst(keys, a, b); }
  }

  /** The keys of a BTreeMap in iteration order. */
  function SortedKeys(keys: set<string>): (sorted: seq<string>)
    ensures forall k :: k in sorted <==> k in keys
    ensures |sorted| == |keys|
    ensures forall i, j | 0 <= i < j < |sorted| :: Before(sorted[i], sorted[j])
  {
    if keys == {} then []
    else
      FirstIsUnique(keys);
      var k :| k in keys && IsFirst(k, keys);
      [k] + SortedKeys(keys - {k})
  }
}
