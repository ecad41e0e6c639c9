/** The clean-up `start_interval_quiz` applies to every answer line:
    `input(...).strip().lower()`. `str.strip()` with no argument removes
    the characters for which `str.isspace()` holds from both ends;
    `str.lower()` is modelled on ASCII letters. */
module AnswerText {

  /** The characters Python's `str.isspace()` accepts. */
  predicate IsSpace(c: char)
  {
    || ('\U{9}' <= c <= '\U{D}')
    || ('\U{1C}' <= c <= '\U{20}')
    || c == '\U{85}' || c == '\U{A0}' || c == '\U{1680}'
    || ('\U{2000}' <= c <= '\U{200A}')
    || c == '\U{2028}' || c == '\U{2029}' || c == '\U{202F}' || c == '\U{205F}' || c == '\U{3000}'
  }

  /** The number of whitespace characters at the front of `s`, counted from `from`. */
  function LeadFrom(s: string, from: nat): (n: nat)
    requires from <= |s|
    requires forall i :: 0 <= i < from ==> IsSpace(s[i])
    ensures from <= n <= |s|
    ensures forall i :: 0 <= i < n ==> IsSpace(s[i])
    ensures n < |s| ==> !IsSpace(s[n])
    decreases |s| - from
  {
    if from < |s| && IsSpace(s[from]) then LeadFrom(s, from + 1) else from
  }

  /** The length of the longest all-whitespace prefix of `s`. */
  function Lead(s: string): (n: nat)
    ensures n <= |s|
    ensures forall i :: 0 <= i < n ==> IsSpace(s[i])
    ensures n < |s| ==> !IsSpace(s[n])
  {
    LeadFrom(s, 0)
  }

  /** The length of `s` without its whitespace tail, counted down from `to`. */
  function EndFrom(s: string, to: nat): (n: nat)
    requires to <= |s|
    requires forall i :: to <= i < |s| ==> IsSpace(s[i])
    ensures n <= to
    ensures forall i :: n <= i < |s| ==> IsSpace(s[i])
    ensures n > 0 ==> !IsSpace(s[n - 1])
  {
    if to > 0 && IsSpace(s[to - 1]) then EndFrom(s, to - 1) else to
  }

  /** The length of the longest prefix of `s` that does not end in whitespace. */
  function End(s: string): (n: nat)
    ensures n <= |s|
    ensures forall i :: n <= i < |s| ==> IsSpace(s[i])
    ensures n > 0 ==> !IsSpace(s[n - 1])
  {
    EndFrom(s, |s|)
  }

  /** `s.strip()`: the middle part of `s` left between the leading and the
      trailing whitespace. */
  function Strip(s: string): (r: string)
    ensures Lead(s) + |r| <= |s|
    ensures r == s[Lead(s)..Lead(s) + |r|]
    ensures forall i :: 0 <= i < Lead(s) ==> IsSpace(s[i])
    ensures forall i :: Lead(s) + |r| <= i < |s| ==> IsSpace(s[i])
    ensures |r| > 0 ==> !IsSpace(r[0]) && !IsSpace(r[|r| - 1])
    ensures r == [] <==> forall i :: 0 <= i < |s| ==> IsSpace(s[i])
  {
    var t := s[Lead(s)..];
    var r := t[..End(t)];
    MiddleSpaces(s, Lead(s), r);
    r
  }

  /** A string that is whitespace outside the slice `r` starting at `lo`
      is all whitespace when `r` is empty. */
  lemma MiddleSpaces(s: string, lo: nat, r: string)
    requires lo + |r| <= |s| && s[lo..lo + |r|] == r
    requires forall i :: 0 <= i < lo ==> IsSpace(s[i])
    requires forall i :: lo + |r| <= i < |s| ==> IsSpace(s[i])
    ensures r == [] ==> forall i :: 0 <= i < |s| ==> IsSpace(s[i])
  {
  }

  /** A string whose ends are not whitespace is its own `strip()`. */
  lemma {:induction false} StripFixesTrimmed(s: string)
    requires |s| > 0 ==> !IsSpace(s[0]) && !IsSpace(s[|s| - 1])
    ensures Strip(s) == s
  {
    assert Lead(s) == 0 by {
      if |s| > 0 {
        assert !IsSpace(s[0]);
      }
    }
    assert End(s) == |s| by {
      if |s| > 0 {
        assert !IsSpace(s[|s| - 1]);
      }
    }
    assert s[Lead(s)..] == s;
  }

  /** Stripping twice is stripping once. */
  lemma StripIdempotent(s: string)
    ensures Strip(Strip(s)) == Strip(s)
  {
    StripFixesTrimmed(Strip(s));
  }

  /** `str.lower()` on one character: ASCII capitals become small letters,
      everything else is kept. */
  function LowerChar(c: char): (d: char)
    ensures 'A' <= c <= 'Z' ==> 'a' <= d <= 'z' && d as int - c as int == 'a' as int - 'A' as int
    ensures !('A' <= c <= 'Z') ==> d == c
  {
    if 'A' <= c <= 'Z' then (c as int - 'A' as int + 'a' as int) as char else c
  }

  /** `str.lower()`. */
  function Lower(s: string): (r: string)
    ensures |r| == |s|
    ensures forall i :: 0 <= i < |s| ==> r[i] == LowerChar(s[i])
  {
    seq(|s|, i requires 0 <= i < |s| => LowerChar(s[i]))
  }

  /** Lower-casing keeps whitespace whitespace and everything else not. */
  lemma LowerKeepsSpaces(c: char)
    ensures IsSpace(LowerChar(c)) <==> IsSpace(c)
  {
  }

  /** Lower-casing a lower-cased string changes nothing. */
  lemma LowerIdempotent(s: string)
    ensures Lower(Lower(s)) == Lower(s)
  {
  }

  /** The answer as the quiz compares it: `answer.strip().lower()`. */
  function Clean(s: string): (r: string)
    ensures |r| <= |s|
    ensures |r| > 0 ==> !IsSpace(r[0]) && !IsSpace(r[|r| - 1])
    ensures forall i :: 0 <= i < |r| ==> !('A' <= r[i] <= 'Z')
  {
    var t := Strip(s);
    LowerKeepsSpaces(if |t| > 0 then t[0] else ' ');
    LowerKeepsSpaces(if |t| > 0 then t[|t| - 1] else ' ');
    Lower(t)
  }

  /** Cleaning an already cleaned answer changes nothing. */
  lemma {:induction false} CleanIdempotent(s: string)
    ensures Clean(Clean(s)) == Clean(s)
  {
    var c := Clean(s);
    StripFixesTrimmed(c);
    LowerIdempotent(Strip(s));
  }

  /** Surrounding whitespace and capitals do not hide an exit request. */
  lemma ShoutedExit()
    ensures Clean(" EXIT\n") == "exit"
  {
    var s := " EXIT\n";
    assert Lead(s) == 1 by {
      assert IsSpace(s[0]) && !IsSpace(s[1]);
    }
    var t := s[1..];
    assert t == "EXIT\n";
    assert End(t) == 4 by {
      assert IsSpace(t[4]) && !IsSpace(t[3]);
    }
    assert Strip(s) == "EXIT";
  }
}
