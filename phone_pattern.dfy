/**
 * The two phone-number regular expressions of the forms, `^09\d{8}$` (a
 * mobile number) and `^0[2-9]\d{7,8}$` (a landline number), read as what
 * they are: a sequence of character ranges, each repeated between a least
 * and a most number of times, matched against the whole string.
 */
module PhonePattern {
  import opened Text

  /** `[lo-hi]{min,max}`. */
  datatype Piece = Piece(lo: char, hi: char, min: nat, max: nat)

  /** A single literal character. */
  function Char(c: char): Piece { Piece(c, c, 1, 1) }

  /** `\d{min,max}`. */
  function Digits(min: nat, max: nat): Piece { Piece('0', '9', min, max) }

  predicate AllIn(s: string, p: Piece)
  {
    forall i :: 0 <= i < |s| ==> p.lo <= s[i] <= p.hi
  }

  /** `^...$`: the pieces, in order, consume the whole string. */
  predicate FullMatch(ps: seq<Piece>, s: string)
    decreases |ps|, 1, 0
  {
    if ps == [] then s == [] else TryCounts(ps, s, ps[0].min)
  }

  /** Some repetition count of the first piece, from `k` up to its most, lets the rest match. */
  predicate TryCounts(ps: seq<Piece>, s: string, k: nat)
    requires ps != []
    decreases |ps|, 0, ps[0].max - k
  {
    k <= ps[0].max &&
    ((k <= |s| && AllIn(s[..k], ps[0]) && FullMatch(ps[1..], s[k..])) || TryCounts(ps, s, k + 1))
  }

  lemma {:induction false} TryCountsMeaning(ps: seq<Piece>, s: string, k: nat)
    requires ps != []
    ensures TryCounts(ps, s, k) <==>
      exists j :: k <= j <= ps[0].max && j <= |s| && AllIn(s[..j], ps[0]) && FullMatch(ps[1..], s[j..])
    decreases ps[0].max - k
  {
    if k <= ps[0].max {
      TryCountsMeaning(ps, s, k + 1);
    }
  }

  /** The regular-expression reading: the first piece takes between its least and most characters of its range, and the rest matches what follows. */
  lemma FullMatchMeaning(ps: seq<Piece>, s: string)
    requires ps != []
    ensures FullMatch(ps, s) <==>
      exists j :: ps[0].min <= j <= ps[0].max && j <= |s| && AllIn(s[..j], ps[0]) && FullMatch(ps[1..], s[j..])
  {
    TryCountsMeaning(ps, s, ps[0].min);
  }

  /** A first piece that takes exactly one character: the string starts with a character of its range and the rest matches. */
  lemma OneCharStep(p: Piece, rest: seq<Piece>, s: string)
    requires p.min == 1 && p.max == 1
    ensures FullMatch([p] + rest, s) <==> |s| >= 1 && p.lo <= s[0] <= p.hi && FullMatch(rest, s[1..])
  {
    var ps := [p] + rest;
    assert ps[1..] == rest;
    FullMatchMeaning(ps, s);
    if |s| >= 1 && p.lo <= s[0] <= p.hi && FullMatch(rest, s[1..]) {
      assert AllIn(s[..1], ps[0]);
    }
  }

  /** A last piece takes the whole remaining string. */
  lemma LastStep(p: Piece, s: string)
    ensures FullMatch([p], s) <==> p.min <= |s| <= p.max && AllIn(s, p)
  {
    FullMatchMeaning([p], s);
    assert [p][1..] == [];
    if p.min <= |s| <= p.max && AllIn(s, p) {
      assert s[..|s|] == s;
      assert FullMatch([p][1..], s[|s|..]);
    }
  }

  /** `^09\d{8}$` */
  const MOBILE: seq<Piece> := [Char('0'), Char('9'), Digits(8, 8)]

  /** `^0[2-9]\d{7,8}$` */
  const LANDLINE: seq<Piece> := [Char('0'), Piece('2', '9', 1, 1), Digits(7, 8)]

  /** A mobile number is "09" followed by exactly eight digits, ten characters in all. */
  lemma MobileMeaning(s: string)
    ensures FullMatch(MOBILE, s) <==> |s| == 10 && s[0] == '0' && s[1] == '9' && AllDigits(s[2..])
  {
    assert MOBILE == [Char('0')] + [Char('9'), Digits(8, 8)];
    OneCharStep(Char('0'), [Char('9'), Digits(8, 8)], s);
    if |s| >= 1 {
      assert [Char('9'), Digits(8, 8)] == [Char('9')] + [Digits(8, 8)];
      OneCharStep(Char('9'), [Digits(8, 8)], s[1..]);
      if |s| >= 2 {
        assert s[1..][1..] == s[2..];
        LastStep(Digits(8, 8), s[2..]);
      }
    }
  }

  /** A landline number is "0", a digit from 2 to 9, then seven or eight digits: nine or ten characters in all. */
  lemma LandlineMeaning(s: string)
    ensures FullMatch(LANDLINE, s) <==>
      (|s| == 9 || |s| == 10) && s[0] == '0' && '2' <= s[1] <= '9' && AllDigits(s[2..])
  {
    var area := Piece('2', '9', 1, 1);
    assert LANDLINE == [Char('0')] + [area, Digits(7, 8)];
    OneCharStep(Char('0'), [area, Digits(7, 8)], s);
    if |s| >= 1 {
      assert [area, Digits(7, 8)] == [area] + [Digits(7, 8)];
      OneCharStep(area, [Digits(7, 8)], s[1..]);
      if |s| >= 2 {
        assert s[1..][1..] == s[2..];
        LastStep(Digits(7, 8), s[2..]);
      }
    }
  }

  /** Every mobile number also passes the landline pattern. */
  lemma MobileIsLandline(s: string)
    requires FullMatch(MOBILE, s)
    ensures FullMatch(LANDLINE, s)
  {
    MobileMeaning(s);
    LandlineMeaning(s);
  }

  lemma MobileExample()
    ensures FullMatch(MOBILE, "0912345678")
    ensures FullMatch(LANDLINE, "0912345678")
    ensures !FullMatch(MOBILE, "0212345678")
    ensures FullMatch(LANDLINE, "0212345678")
  {
    MobileMeaning("0912345678");
    MobileMeaning("0212345678");
    LandlineMeaning("0912345678");
    LandlineMeaning("0212345678");
  }
}
