/**
 * The account-address regular expression `^0x[a-fA-F0-9]{40}$` and what a
 * successful `test` of it means.
 *
 * The pattern is written as a sequence of character classes, each repeated a
 * fixed number of times, between a start and an end anchor. With only
 * fixed-count repetitions there is no backtracking choice, so a full match is
 * decided by consuming each class in turn; `FullMatch` is that decision.
 * Without the `m` flag `$` matches only at the end of the input, so the match
 * must consume the whole string.
 */
module AddressPattern {

  datatype CharClass =
    | Literal(c: char)
    /** `[lo-hi…]`: a union of inclusive ranges */
    | Ranges(ranges: seq<(char, char)>)

  /** `cls{count}` */
  datatype Repeat = Repeat(cls: CharClass, count: nat)

  predicate InClass(c: char, cls: CharClass)
  {
    match cls
    case Literal(l) => c == l
    case Ranges(rs) => exists k :: 0 <= k < |rs| && rs[k].0 <= c <= rs[k].1
  }

  predicate AllInClass(s: string, cls: CharClass)
  {
    forall i :: 0 <= i < |s| ==> InClass(s[i], cls)
  }

  /** `new RegExp("^" + p + "$").test(s)` for a pattern of fixed-count repeats. */
  predicate FullMatch(p: seq<Repeat>, s: string)
    decreases |p|
  {
    if |p| == 0 then s == ""
    else
      var n := p[0].count;
      n <= |s| && AllInClass(s[..n], p[0].cls) && FullMatch(p[1..], s[n..])
  }

  const HexClass := Ranges([('a', 'f'), ('A', 'F'), ('0', '9')])

  /** `^0x[a-fA-F0-9]{40}$` */
  const AddressRegex := [Repeat(Literal('0'), 1), Repeat(Literal('x'), 1), Repeat(HexClass, 40)]

  predicate IsHexDigit(c: char)
  {
    '0' <= c <= '9' || 'a' <= c <= 'f' || 'A' <= c <= 'F'
  }

  /** The address shape: `0x` then exactly 40 hex digits of either case, nothing else. */
  predicate HasAddressShape(s: string)
  {
    |s| == 42 && s[0] == '0' && s[1] == 'x' && forall i :: 2 <= i < 42 ==> IsHexDigit(s[i])
  }

  lemma HexClassIsHexDigit(c: char)
    ensures InClass(c, HexClass) <==> IsHexDigit(c)
  {
    var rs := [('a', 'f'), ('A', 'F'), ('0', '9')];
    if IsHexDigit(c) {
      if 'a' <= c <= 'f' {
        assert rs[0].0 <= c <= rs[0].1;
      } else if 'A' <= c <= 'F' {
        assert rs[1].0 <= c <= rs[1].1;
      } else {
        assert rs[2].0 <= c <= rs[2].1;
      }
    }
  }

  /** A full match of the address regex is exactly the documented shape. */
  lemma {:induction false} AddressRegexMatchesShape(s: string)
    ensures FullMatch(AddressRegex, s) <==> HasAddressShape(s)
  {
    var p := AddressRegex;
    var p1 := [Repeat(Literal('x'), 1), Repeat(HexClass, 40)];
    var p2 := [Repeat(HexClass, 40)];
    assert p[1..] == p1 && p1[1..] == p2 && p2[1..] == [];
    if |s| < 2 {
      assert !FullMatch(p, s);
    } else {
      var tail := s[2..];
      assert s[1..][1..] == tail;
      assert AllInClass(s[..1], Literal('0')) <==> s[0] == '0';
      assert AllInClass(s[1..][..1], Literal('x')) <==> s[1] == 'x';
      assert FullMatch(p, s) <==> s[0] == '0' && s[1] == 'x' && FullMatch(p2, tail);
      if |tail| == 40 {
        assert tail[..40] == tail && tail[40..] == [];
        assert FullMatch(p2, tail) <==> AllInClass(tail, HexClass);
        forall i | 0 <= i < 40
          ensures InClass(tail[i], HexClass) <==> IsHexDigit(s[i + 2])
        {
          HexClassIsHexDigit(tail[i]);
        }
        assert AllInClass(tail, HexClass) <==> forall i :: 2 <= i < 42 ==> IsHexDigit(s[i]) by {
          if AllInClass(tail, HexClass) {
            forall i | 2 <= i < 42 ensures IsHexDigit(s[i]) {
              assert InClass(tail[i - 2], HexClass);
            }
          }
        }
      } else {
        assert !FullMatch(p2, tail) by {
          if |tail| > 40 {
            assert tail[40..] != [];
          }
        }
      }
    }
  }
}
