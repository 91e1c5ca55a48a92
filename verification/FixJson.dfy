/** FixJSON (internal/util/translator.go): single-quoted strings become double-quoted
    ones. Text is a sequence of runes. */
module FixJson {

  /** Where the scanner is: outside strings or in one, after a backslash or not. */
  datatype State = Outside | Double(escaped: bool) | Single(escaped: bool)

  function Next(q: State, r: char): State {
    match q
    case Outside => if r == '"' then Double(false) else if r == '\'' then Single(false) else Outside
    case Double(escaped) =>
      if escaped then Double(false) else if r == '\\' then Double(true) else if r == '"' then Outside else q
    case Single(escaped) =>
      if escaped then Single(false) else if r == '\\' then Single(true) else if r == '\'' then Outside else q
  }

  function Written(q: State, r: char): string {
    match q
    case Outside => if r == '\'' then "\"" else [r]
    case Double(_) => [r]
    case Single(escaped) =>
      if escaped then if r == '\'' then "'" else ['\\', r]
      else if r == '\\' then ""
      else if r == '\'' then "\""
      else if r == '"' then "\\\""
      else [r]
  }

  function After(s: string): State {
    if s == "" then Outside else Next(After(s[..|s| - 1]), s[|s| - 1])
  }

  function Output(s: string): string {
    if s == "" then "" else Output(s[..|s| - 1]) + Written(After(s[..|s| - 1]), s[|s| - 1])
  }

  /** The fixed text; a single-quoted string left open is closed. */
  function Fixed(s: string): string {
    Output(s) + if After(s).Single? then "\"" else ""
  }

  lemma OneMore(s: string, r: char)
    ensures After(s + [r]) == Next(After(s), r) && Output(s + [r]) == Output(s) + Written(After(s), r)
  {
    assert (s + [r])[..|s|] == s;
  }

  // ----- the loop

  predicate IsHex(r: char) {
    '0' <= r <= '9' || 'a' <= r <= 'f' || 'A' <= r <= 'F'
  }

  /** Copying up to four hex digits after \u writes what the scanner would have written
      for them one by one. */
  method CopyHex(runes: string, start: nat, prefix: string) returns (output: string, i: nat)
    requires start < |runes| && After(runes[..start + 1]) == Single(false) && prefix == Output(runes[..start + 1])
    ensures start <= i < |runes| && After(runes[..i + 1]) == Single(false) && output == Output(runes[..i + 1])
  {
    hide Output, After;
    output, i := prefix, start;
    var k := 0;
    while k < 4 && i + 1 < |runes|
      invariant start <= i < |runes| && After(runes[..i + 1]) == Single(false) && output == Output(runes[..i + 1])
      decreases 4 - k
    {
      var peek := runes[i + 1];
      if !IsHex(peek) { break; }
      OneMore(runes[..i + 1], peek);
      assert runes[..i + 2] == runes[..i + 1] + [peek];
      output := output + [peek];
      i := i + 1;
      k := k + 1;
    }
  }

  method FixJSON(input: string) returns (fixed: string)
    ensures fixed == Fixed(input)
  {
    hide Output, After;
    StartOutside();
    var output := "";
    var inDouble, inSingle, escaped := false, false, false;
    var i := 0;
    while i < |input|
      invariant i <= |input| && output == Output(input[..i])
      invariant After(input[..i]) == (if inDouble then Double(escaped) else if inSingle then Single(escaped) else Outside)
      invariant !(inDouble && inSingle) && (escaped ==> inDouble || inSingle)
    {
      var r := input[i];
      OneMore(input[..i], r);
      assert input[..i + 1] == input[..i] + [r];
      if inDouble {
        output := output + [r];
        if escaped {
          escaped := false;
        } else if r == '\\' {
          escaped := true;
        } else if r == '"' {
          inDouble := false;
        }
      } else if inSingle {
        if escaped {
          escaped := false;
          if r == '\'' {
            output := output + "'";
          } else if r == 'u' {
            output := output + "\\u";
            output, i := CopyHex(input, i, output);
          } else {
            output := output + ['\\', r];
          }
        } else if r == '\\' {
          escaped := true;
        } else if r == '\'' {
          output := output + "\"";
          inSingle := false;
        } else if r == '"' {
          output := output + "\\\"";
        } else {
          output := output + [r];
        }
      } else if r == '"' {
        inDouble := true;
        output := output + [r];
      } else if r == '\'' {
        inSingle := true;
        output := output + "\"";
      } else {
        output := output + [r];
      }
      i := i + 1;
    }
    assert input[..|input|] == input;
    if inSingle {
      output := output + "\"";
    }
    return output;
  }

  lemma StartOutside()
    ensures After("") == Outside && Output("") == ""
  {
  }

  // ----- when nothing changes

  predicate SingleAt(s: string, k: nat)
    requires k <= |s|
  {
    After(s[..k]).Single?
  }

  /** No single quote stands outside a double-quoted string as in RFC 8259, section 7. */
  ghost predicate NoSingleQuoted(s: string) {
    forall k :: 0 <= k <= |s| ==> !SingleAt(s, k)
  }

  lemma {:induction false} CleanIsCopied(s: string)
    requires NoSingleQuoted(s)
    ensures Output(s) == s
  {
    if s != "" {
      var before := s[..|s| - 1];
      forall k | 0 <= k <= |before| ensures !SingleAt(before, k) {
        assert before[..k] == s[..k] && !SingleAt(s, k);
      }
      assert !SingleAt(s, |s| - 1) && !SingleAt(s, |s|);
      CleanIsCopied(before);
      assert s[..|s|] == s && s == before + [s[|s| - 1]];
    }
  }

  lemma {:induction false} OutputGrows(s: string, k: nat)
    requires k <= |s|
    ensures Output(s[..k]) <= Output(s)
    decreases |s|
  {
    if k < |s| {
      OutputGrows(s[..|s| - 1], k);
      assert s[..|s| - 1][..k] == s[..k];
    } else {
      assert s[..k] == s;
    }
  }

  /** The position of the first single quote outside, seen from the state just after it. */
  lemma {:induction false} FirstSingle(s: string, k: nat) returns (m: nat)
    requires k <= |s| && SingleAt(s, k)
    ensures 0 < m <= k && s[m - 1] == '\'' && After(s[..m - 1]) == Outside && NoSingleQuoted(s[..m - 1])
    decreases k
  {
    assert s[..0] == "";
    var before := s[..k - 1];
    assert s[..k][..k - 1] == before;
    if j :| 0 <= j < k && SingleAt(s, j) {
      m := FirstSingle(s, j);
    } else {
      m := k;
      forall j | 0 <= j <= |before| ensures !SingleAt(before, j) {
        assert before[..j] == s[..j] && !SingleAt(s, j);
      }
      assert before[..|before|] == before && !SingleAt(before, |before|);
    }
  }

  /** FixJSON changes nothing exactly where no single quote stands outside a
      double-quoted string. */
  lemma IdentityExactly(s: string)
    ensures Fixed(s) == s <==> NoSingleQuoted(s)
  {
    hide Output, After;
    if NoSingleQuoted(s) {
      CleanIsCopied(s);
      assert s[..|s|] == s && !SingleAt(s, |s|);
    } else {
      var k :| 0 <= k <= |s| && SingleAt(s, k);
      var m := FirstSingle(s, k);
      CleanIsCopied(s[..m - 1]);
      OneMore(s[..m - 1], s[m - 1]);
      assert s[..m] == s[..m - 1] + [s[m - 1]];
      OutputGrows(s, m);
      assert Output(s[..m])[m - 1] == '"';
    }
  }

  // ----- scanning the output again

  /** Where a scan of the output is when the scan of the input is at `q`. */
  function Image(q: State): State {
    match q
    case Single(_) => Double(false)
    case _ => q
  }

  lemma {:induction false} AfterConcat(s: string, t: string)
    ensures After(s + t) == Resume(After(s), t)
    decreases |t|
  {
    if t == "" {
      assert s + t == s;
    } else {
      var front := t[..|t| - 1];
      AfterConcat(s, front);
      OneMore(s + front, t[|t| - 1]);
      assert s + t == s + front + [t[|t| - 1]];
    }
  }

  function Resume(q: State, t: string): State {
    if t == "" then q else Next(Resume(q, t[..|t| - 1]), t[|t| - 1])
  }

  /** Scanning what one step wrote goes from the image of its state to the image of the
      next, and never into a single-quoted string. */
  lemma StepImage(q: State, r: char)
    ensures Resume(Image(q), Written(q, r)) == Image(Next(q, r))
    ensures forall k :: 0 <= k <= |Written(q, r)| ==> !Resume(Image(q), Written(q, r)[..k]).Single?
  {
    var w := Written(q, r);
    assert w[..|w|] == w;
    if |w| == 2 {
      assert w[..1] == [w[0]] && w[..0] == "";
      assert Resume(Image(q), w[..1]) == Next(Resume(Image(q), w[..1][..0]), w[0]);
      assert w[..1][..0] == "";
    } else if |w| == 1 {
      assert w[..0] == "";
    }
  }

  lemma CleanConcat(s: string, t: string)
    requires NoSingleQuoted(s) && forall k :: 0 <= k <= |t| ==> !Resume(After(s), t[..k]).Single?
    ensures NoSingleQuoted(s + t)
  {
    forall k | 0 <= k <= |s + t| ensures !SingleAt(s + t, k) {
      if k <= |s| {
        assert (s + t)[..k] == s[..k] && !SingleAt(s, k);
      } else {
        assert (s + t)[..k] == s + t[..k - |s|];
        AfterConcat(s, t[..k - |s|]);
      }
    }
  }

  /** The scan of the output follows the scan of the input. */
  lemma {:induction false} OutputIsClean(s: string)
    ensures After(Output(s)) == Image(After(s)) && NoSingleQuoted(Output(s))
  {
    if s != "" {
      var before, r := s[..|s| - 1], s[|s| - 1];
      var w := Written(After(before), r);
      OutputIsClean(before);
      StepImage(After(before), r);
      AfterConcat(Output(before), w);
      CleanConcat(Output(before), w);
    }
  }

  lemma FixedIsClean(s: string)
    ensures NoSingleQuoted(Fixed(s)) && !After(Fixed(s)).Single?
  {
    OutputIsClean(s);
    if After(s).Single? {
      OneMore(Output(s), '"');
      var w := "\"";
      assert w[..0] == "" && w[..1] == w;
      assert Resume(After(Output(s)), w) == Next(Resume(After(Output(s)), w[..0]), '"');
      CleanConcat(Output(s), w);
    } else {
      assert Fixed(s) == Output(s);
    }
  }

  /** Fixing twice is fixing once. */
  lemma Idempotent(s: string)
    ensures Fixed(Fixed(s)) == Fixed(s)
  {
    FixedIsClean(s);
    IdentityExactly(Fixed(s));
  }

  // ----- what the text means

  /** What a text says, whichever quotes it uses. */
  datatype Item = Bare(r: char) | Open | Letter(r: char) | Escape(r: char) | Close

  /** A double-quoted string is read as in RFC 8259, section 7, where an escaped double
      quote means the quote; in a single-quoted one either quote may be escaped. Other
      escapes are left to the decoder, which knows none of a single quote. */
  function Said(q: State, r: char): seq<Item> {
    match q
    case Outside => if r == '"' || r == '\'' then [Open] else [Bare(r)]
    case Double(escaped) =>
      if escaped then [if r == '"' then Letter('"') else Escape(r)] else if r == '\\' then [] else if r == '"' then [Close] else [Letter(r)]
    case Single(escaped) =>
      if escaped then [if r == '"' || r == '\'' then Letter(r) else Escape(r)] else if r == '\\' then [] else if r == '\'' then [Close] else [Letter(r)]
  }

  function SaidBy(q: State, s: string): seq<Item> {
    if s == "" then [] else SaidBy(q, s[..|s| - 1]) + Said(Resume(q, s[..|s| - 1]), s[|s| - 1])
  }

  /** A single-quoted string that is left open counts as closed at the end. */
  function Meaning(s: string): seq<Item> {
    SaidBy(Outside, s) + if Resume(Outside, s).Single? then [Close] else []
  }

  lemma {:induction false} AfterIsResume(s: string)
    ensures After(s) == Resume(Outside, s)
  {
    if s != "" {
      AfterIsResume(s[..|s| - 1]);
    }
  }

  lemma SaidByNothing(q: State)
    ensures SaidBy(q, "") == [] && Resume(q, "") == q
  {
  }

  lemma SaidByMore(q: State, s: string, r: char)
    ensures SaidBy(q, s + [r]) == SaidBy(q, s) + Said(Resume(q, s), r) && Resume(q, s + [r]) == Next(Resume(q, s), r)
  {
    assert (s + [r])[..|s|] == s;
  }

  lemma {:induction false} SaidByConcat(q: State, s: string, t: string)
    ensures SaidBy(q, s + t) == SaidBy(q, s) + SaidBy(Resume(q, s), t) && Resume(q, s + t) == Resume(Resume(q, s), t)
    decreases |t|
  {
    hide SaidBy, Resume, Said, Next;
    if t == "" {
      assert s + t == s;
      SaidByNothing(Resume(q, s));
    } else {
      var front, r := t[..|t| - 1], t[|t| - 1];
      SaidByConcat(q, s, front);
      SaidByMore(q, s + front, r);
      SaidByMore(Resume(q, s), front, r);
      assert s + t == s + front + [r] && t == front + [r];
    }
  }

  lemma StepSays(q: State, r: char)
    ensures SaidBy(Image(q), Written(q, r)) == Said(q, r)
  {
    var w := Written(q, r);
    if |w| == 2 {
      SaidByConcat(Image(q), [w[0]], [w[1]]);
      assert w == [w[0]] + [w[1]];
      SaidByOne(Image(q), w[0]);
      SaidByOne(Next(Image(q), w[0]), w[1]);
    } else if |w| == 1 {
      SaidByOne(Image(q), w[0]);
      assert w == [w[0]];
    }
  }

  lemma SaidByOne(q: State, r: char)
    ensures SaidBy(q, [r]) == Said(q, r) && Resume(q, [r]) == Next(q, r)
  {
    assert [r][..0] == "";
    assert Resume(q, [r][..0]) == q && SaidBy(q, [r][..0]) == [];
  }

  lemma {:induction false} OutputSays(s: string)
    ensures SaidBy(Outside, Output(s)) == SaidBy(Outside, s)
  {
    if s != "" {
      var before, r := s[..|s| - 1], s[|s| - 1];
      OutputSays(before);
      OutputIsClean(before);
      AfterIsResume(before);
      AfterIsResume(Output(before));
      StepSays(After(before), r);
      SaidByConcat(Outside, Output(before), Written(After(before), r));
    }
  }

  /** Fixing changes the quotes and nothing of what is said. */
  lemma MeaningKept(s: string)
    ensures Meaning(Fixed(s)) == Meaning(s)
  {
    OutputSays(s);
    OutputIsClean(s);
    FixedIsClean(s);
    AfterIsResume(s);
    AfterIsResume(Output(s));
    AfterIsResume(Fixed(s));
    if After(s).Single? {
      SaidByConcat(Outside, Output(s), "\"");
      SaidByOne(Double(false), '"');
    } else {
      assert Fixed(s) == Output(s);
    }
  }

  /** A single quote is escaped somewhere in a double-quoted string, which no decoder
      accepts. */
  ghost predicate EscapesSingle(s: string) {
    exists k :: 0 <= k < |s| && EscapesSingleAt(s, k)
  }

  predicate EscapesSingleAt(s: string, k: nat)
    requires k < |s|
  {
    After(s[..k]) == Double(true) && s[k] == '\''
  }

  lemma {:induction false} EscapesAreSaid(s: string)
    ensures EscapesSingle(s) <==> Escape('\'') in SaidBy(Outside, s)
  {
    if s != "" {
      var before, n := s[..|s| - 1], |s| - 1;
      EscapesAreSaid(before);
      AfterIsResume(before);
      assert EscapesSingleAt(s, n) <==> Escape('\'') in Said(Resume(Outside, before), s[n]);
      forall k | 0 <= k < n ensures EscapesSingleAt(s, k) <==> EscapesSingleAt(before, k) {
        assert before[..k] == s[..k];
      }
    }
  }

  /** Fixing leaves a decoder no escaped single quote but those that double-quoted strings
      of the input had. */
  lemma NoNewEscape(s: string)
    ensures EscapesSingle(Fixed(s)) <==> EscapesSingle(s)
  {
    MeaningKept(s);
    EscapesAreSaid(s);
    EscapesAreSaid(Fixed(s));
    FixedIsClean(s);
    AfterIsResume(s);
    AfterIsResume(Fixed(s));
    SaidInMeaning(s);
    SaidInMeaning(Fixed(s));
  }

  lemma SaidInMeaning(s: string)
    ensures Escape('\'') in Meaning(s) <==> Escape('\'') in SaidBy(Outside, s)
  {
    hide SaidBy;
    var end := if Resume(Outside, s).Single? then [Close] else [];
    assert Meaning(s) == SaidBy(Outside, s) + end;
  }
}
