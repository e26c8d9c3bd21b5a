/** Workload names in the order of a manifest's name table, and the binary
    search that turns an import target into a table position. */
module Names {
  import opened Wrappers

  /** Lexicographic order on names. */
  predicate Less(a: string, b: string) {
    b != [] && (a == [] || a[0] < b[0] || (a[0] == b[0] && Less(a[1..], b[1..])))
  }

  lemma {:induction false} LessTransitive(a: string, b: string, c: string)
    requires Less(a, b) && Less(b, c)
    ensures Less(a, c)
  {
    if a != [] && a[0] == b[0] == c[0] {
      LessTransitive(a[1..], b[1..], c[1..]);
    }
  }

  lemma {:induction false} LessTotal(a: string, b: string)
    ensures Less(a, b) || a == b || Less(b, a)
    ensures !(Less(a, b) && Less(b, a))
    ensures !Less(a, a)
  {
    if a != [] {
      LessTotal(a[1..], a[1..]);
      if b != [] && a[0] == b[0] {
        LessTotal(a[1..], b[1..]);
        if a[1..] == b[1..] {
          assert a == [a[0]] + a[1..] && b == [b[0]] + b[1..];
        }
      }
    }
  }

  /** The first difference decides, and a name comes after its prefixes. */
  lemma {:induction false} FirstDifferenceDecides(p: string, x: char, y: char, a: string, b: string)
    ensures Less(p + [x] + a, p + [y] + b) <==> x < y || (x == y && Less(a, b))
    ensures Less(p, p + [y] + b) && !Less(p + [y] + b, p)
  {
    if p == [] {
      assert [] + [x] + a == [x] + a && ([x] + a)[1..] == a;
      assert [] + [y] + b == [y] + b && ([y] + b)[1..] == b;
    } else {
      FirstDifferenceDecides(p[1..], x, y, a, b);
      assert (p + [x] + a)[1..] == p[1..] + [x] + a;
      assert (p + [y] + b)[1..] == p[1..] + [y] + b;
    }
  }

  ghost predicate StrictlySorted(names: seq<string>) {
    forall i, j | 0 <= i < j < |names| :: Less(names[i], names[j])
  }

  lemma SortedNamesDistinct(names: seq<string>, i: nat, j: nat)
    requires StrictlySorted(names) && i < |names| && j < |names| && names[i] == names[j]
    ensures i == j
  {
    LessTotal(names[i], names[j]);
  }

  method BinarySearch(names: seq<string>, target: string) returns (r: Option<nat>)
    requires StrictlySorted(names)
    ensures r.Some? ==> r.value < |names| && names[r.value] == target
    ensures r.None? ==> target !in names
  {
    var lo, hi := 0, |names|;
    while lo < hi
      invariant 0 <= lo <= hi <= |names|
      invariant forall i | 0 <= i < lo :: Less(names[i], target)
      invariant forall i | hi <= i < |names| :: Less(target, names[i])
    {
      var mid := lo + (hi - lo) / 2;
      if names[mid] == target {
        return Some(mid);
      }
      LessTotal(names[mid], target);
      if Less(names[mid], target) {
        forall i | 0 <= i < mid ensures Less(names[i], target) {
          LessTransitive(names[i], names[mid], target);
        }
        lo := mid + 1;
      } else {
        forall i | mid < i < |names| ensures Less(target, names[i]) {
          LessTransitive(target, names[mid], names[i]);
        }
        hi := mid;
      }
    }
    LessTotal(target, target);
    r := None;
  }
}
