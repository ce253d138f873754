/** The name and identifier formats of src/core/peer-bus-constants.ts and session-registry.ts, and the order of names. */
module Names {

  predicate IsLowerOrDigit(c: char) {
    'a' <= c <= 'z' || '0' <= c <= '9'
  }

  /** ^[a-z0-9][a-z0-9-]{0,62}$ */
  predicate IsSessionName(s: string) {
    1 <= |s| <= 63 && IsLowerOrDigit(s[0]) && forall i :: 1 <= i < |s| ==> IsLowerOrDigit(s[i]) || s[i] == '-'
  }

  /** ^[a-zA-Z0-9_-]{1,64}$ */
  predicate IsAutoWakeKey(s: string) {
    1 <= |s| <= 64 && forall i :: 0 <= i < |s| ==> IsLowerOrDigit(s[i]) || 'A' <= s[i] <= 'Z' || s[i] == '_' || s[i] == '-'
  }

  predicate IsNumbered(prefix: string, s: string) {
    prefix < s && forall i :: |prefix| <= i < |s| ==> '0' <= s[i] <= '9'
  }

  /** ^surface:\d+$ */
  predicate IsSurfaceId(s: string) {
    IsNumbered("surface:", s)
  }

  /** ^workspace:\d+$ */
  predicate IsWorkspaceId(s: string) {
    IsNumbered("workspace:", s)
  }

  /** JavaScript's `<` on strings. */
  predicate LexLess(a: string, b: string) {
    if b == "" then false
    else if a == "" then true
    else if a[0] == b[0] then LexLess(a[1..], b[1..])
    else a[0] < b[0]
  }

  lemma {:induction false} LexLessTotal(a: string, b: string)
    ensures !(LexLess(a, b) && LexLess(b, a))
    ensures a == b <==> !LexLess(a, b) && !LexLess(b, a)
  {
    if a != "" && b != "" && a[0] == b[0] {
      LexLessTotal(a[1..], b[1..]);
      assert a == [a[0]] + a[1..] && b == [b[0]] + b[1..];
    }
  }

  lemma {:induction false} LexLessTransitive(a: string, b: string, c: string)
    requires LexLess(a, b) && LexLess(b, c)
    ensures LexLess(a, c)
  {
    if a != "" && b != "" && c != "" && a[0] == b[0] == c[0] {
      LexLessTransitive(a[1..], b[1..], c[1..]);
    }
  }

  /** Every non-empty finite set of names has a greatest one. */
  lemma {:induction false} GreatestName(names: set<string>) returns (top: string)
    requires names != {}
    ensures top in names && forall n :: n in names ==> !LexLess(top, n)
  {
    var x :| x in names;
    var rest := names - {x};
    if rest == {} {
      top := x;
      LexLessTotal(x, x);
      forall n | n in names ensures n == x {
        assert n !in rest;
      }
    } else {
      var best := GreatestName(rest);
      LexLessTotal(x, x);
      if LexLess(best, x) {
        top := x;
        forall n | n in names ensures !LexLess(top, n) {
          assert n == x || n in rest;
          if n != x && LexLess(x, n) {
            LexLessTransitive(best, x, n);
          }
        }
      } else {
        top := best;
      }
    }
  }
}
