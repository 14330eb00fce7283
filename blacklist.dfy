/**
 * The blacklist dialog: the phone numbers typed or loaded into the text
 * area are split on runs of newlines, commas and semicolons, each piece
 * is trimmed and reduced to its digits, and only numbers of at least ten
 * digits are kept. Submitting rejects blank input and input without a
 * valid number; otherwise the numbers go to the caller and the form is
 * cleared and closed.
 */
module Blacklist {
  import opened Strings
  import opened Lists

  /** The characters of the class `[\n,;]`. */
  predicate IsSeparator(c: char) {
    c == '\n' || c == ',' || c == ';'
  }

  /** A piece holds no separator. */
  predicate Clean(p: string) {
    forall k :: 0 <= k < |p| ==> !IsSeparator(p[k])
  }

  /** The text before the first separator. */
  function Token(s: string): (t: string)
    ensures |t| <= |s| && t == s[..|t|]
    ensures Clean(t)
    ensures |t| < |s| ==> IsSeparator(s[|t|])
  {
    if s == [] || IsSeparator(s[0]) then []
    else
      var t := [s[0]] + Token(s[1..]);
      assert s == [s[0]] + s[1..];
      t
  }

  /** Drops a leading run of separators. */
  function SkipSeparators(s: string): (r: string)
    ensures |r| <= |s| && r == s[|s| - |r|..]
    ensures forall k :: 0 <= k < |s| - |r| ==> IsSeparator(s[k])
    ensures r != [] ==> !IsSeparator(r[0])
    ensures s != [] && IsSeparator(s[0]) ==> |r| < |s|
  {
    if s != [] && IsSeparator(s[0]) then SkipSeparators(s[1..]) else s
  }

  /**
   * `text.split(/[\n,;]+/)`: the text between maximal runs of separators.
   * "" gives [""], a leading or trailing run gives an empty first or last
   * piece, and no piece holds a separator.
   */
  function SplitRuns(s: string): (pieces: seq<string>)
    ensures |pieces| >= 1
    ensures forall i :: 0 <= i < |pieces| ==> Clean(pieces[i])
    ensures s != [] && !IsSeparator(s[0]) ==> pieces[0] != []
    ensures forall i :: 0 < i < |pieces| - 1 ==> pieces[i] != []
    decreases |s|
  {
    var t := Token(s);
    if |t| == |s| then [t]
    else [t] + SplitRuns(SkipSeparators(s[|t|..]))
  }

  /** Text without a separator is a single piece: itself. */
  lemma SplitRunsClean(s: string)
    requires Clean(s)
    ensures SplitRuns(s) == [s]
  {
    var t := Token(s);
    if |t| < |s| {
      assert false;
    }
    assert t == s[..|s|] == s;
  }

  /**
   * A piece, a non-empty run of separators and a rest that does not start
   * with a separator: the piece ends at the run and the splitting goes on
   * after the whole run.
   */
  lemma SplitRunsAfterRun(t: string, run: string, r: string)
    requires Clean(t) && run != [] && AllSeparators(run)
    requires r == [] || !IsSeparator(r[0])
    ensures SplitRuns(t + run + r) == [t] + SplitRuns(r)
  {
    var s := t + run + r;
    assert s == t + (run + r);
    TokenBeforeRun(t, run + r);
    assert s[|t|..] == run + r;
    SkipRun(run, r);
  }

  /** The first piece of a clean text followed by a separator is that text. */
  lemma TokenBeforeRun(t: string, rest: string)
    requires Clean(t) && rest != [] && IsSeparator(rest[0])
    ensures Token(t + rest) == t
  {
    var s := t + rest;
    var k := Token(s);
    assert IsSeparator(s[|t|]) && s[..|t|] == t;
    if |k| < |t| {
      assert false;
    }
    if |k| > |t| {
      assert false;
    }
    assert k == s[..|t|] == t;
  }

  /** Skipping a whole run of separators lands on the rest when the rest does not start with one. */
  lemma {:induction false} SkipRun(run: string, r: string)
    requires AllSeparators(run)
    requires r == [] || !IsSeparator(r[0])
    ensures SkipSeparators(run + r) == r
  {
    if run == [] {
      assert run + r == r;
    } else {
      assert (run + r)[1..] == run[1..] + r;
      SkipRun(run[1..], r);
    }
  }

  /** The pieces concatenated. */
  function Concat(pieces: seq<string>): string {
    if pieces == [] then [] else pieces[0] + Concat(pieces[1..])
  }

  /** The text with every separator removed. */
  function Strip(s: string): (r: string)
    ensures Clean(r)
  {
    if s == [] then [] else (if IsSeparator(s[0]) then [] else [s[0]]) + Strip(s[1..])
  }

  lemma {:induction false} StripAppend(a: string, b: string)
    ensures Strip(a + b) == Strip(a) + Strip(b)
  {
    if a == [] {
      assert a + b == b;
    } else {
      assert (a + b)[0] == a[0] && (a + b)[1..] == a[1..] + b;
      StripAppend(a[1..], b);
      var h: string := if IsSeparator(a[0]) then [] else [a[0]];
      calc {
        Strip(a + b);
        h + Strip(a[1..] + b);
        h + (Strip(a[1..]) + Strip(b));
        (h + Strip(a[1..])) + Strip(b);
      }
    }
  }

  lemma {:induction false} StripClean(s: string)
    requires Clean(s)
    ensures Strip(s) == s
  {
    if s != [] {
      StripClean(s[1..]);
      assert s == [s[0]] + s[1..];
    }
  }

  lemma {:induction false} StripRun(s: string)
    requires AllSeparators(s)
    ensures Strip(s) == []
  {
    if s != [] {
      StripRun(s[1..]);
    }
  }

  /** Splitting loses exactly the separators: the pieces put together are the text without them. */
  lemma {:induction false} SplitRunsKeepsText(s: string)
    ensures Concat(SplitRuns(s)) == Strip(s)
    decreases |s|
  {
    var t := Token(s);
    if |t| == |s| {
      assert s == t;
      StripClean(t);
      assert Concat([t]) == t + Concat([]);
    } else {
      var r := SkipSeparators(s[|t|..]);
      assert r == s[|s| - |r|..] by {
        DropDrop(s, |t|, |s[|t|..]| - |r|);
      }
      FirstPieceShape(s, t, r);
      RunAfterFirstPiece(s, |t|, |s| - |r|);
      SeparatorRunDropped(t, s[|t|..|s| - |r|], r);
      ConcatFirstPiece(s, t, r);
      SplitRunsKeepsText(r);
    }
  }

  /** The text is its first piece, the run of separators after it, and the rest. */
  lemma FirstPieceShape(s: string, t: string, r: string)
    requires |t| < |s| && t == s[..|t|] && |r| <= |s| - |t| && r == s[|s| - |r|..]
    ensures s == t + (s[|t|..|s| - |r|] + r)
  {
    ThreeSlices(s, |t|, |s| - |r|, t, r);
  }

  /** What lies between the first piece and the rest is a run of separators. */
  lemma RunAfterFirstPiece(s: string, i: nat, j: nat)
    requires i <= j <= |s|
    requires forall k :: 0 <= k < j - i ==> IsSeparator(s[i..][k])
    ensures AllSeparators(s[i..j])
  {
    forall k | 0 <= k < j - i ensures IsSeparator(s[i..j][k]) {
      assert s[i..j][k] == s[i..][k];
    }
  }

  /** The first piece and the run after it: the pieces are the first one, then the pieces of what follows the run. */
  lemma ConcatFirstPiece(s: string, t: string, r: string)
    requires t == Token(s) && |t| < |s| && r == SkipSeparators(s[|t|..])
    ensures Concat(SplitRuns(s)) == t + Concat(SplitRuns(r))
  {
    assert SplitRuns(s) == [t] + SplitRuns(r);
    assert ([t] + SplitRuns(r))[1..] == SplitRuns(r);
  }

  /** A run of separators only. */
  predicate AllSeparators(s: string) {
    forall k :: 0 <= k < |s| ==> IsSeparator(s[k])
  }

  /** Stripping a token, a run of separators and the rest keeps the token and strips the rest. */
  lemma SeparatorRunDropped(t: string, run: string, r: string)
    requires Clean(t) && AllSeparators(run)
    ensures Strip(t + (run + r)) == t + Strip(r)
  {
    assert Strip(t) == t by {
      StripClean(t);
    }
    assert Strip(run) == [] by {
      StripRun(run);
    }
    StripAppend(t, run + r);
    StripAppend(run, r);
    assert [] + Strip(r) == Strip(r);
  }

  /** `num.trim().replace(/\D/g, '')`: the digits of a piece; the trim removes nothing that counts. */
  function Normalize(piece: string): (n: string)
    ensures AllDigits(n)
    ensures n == Digits(piece)
  {
    DigitsOfTrim(piece);
    Digits(Trim(piece))
  }

  /** Normalize applied to every piece, in order. */
  function NormalizeAll(pieces: seq<string>): (ns: seq<string>)
    ensures |ns| == |pieces|
    ensures forall i :: 0 <= i < |pieces| ==> ns[i] == Normalize(pieces[i])
  {
    seq(|pieces|, i requires 0 <= i < |pieces| => Normalize(pieces[i]))
  }

  /** A number is kept when it has at least ten digits. */
  predicate LongEnough(n: string) {
    |n| >= 10
  }

  /**
   * The numbers the text yields: split, normalised, then filtered. Every
   * number is all digits and at least ten long, they keep the order of
   * their pieces, and there are no more of them than pieces.
   */
  function ParseNumbers(text: string): (numbers: seq<string>)
    ensures |numbers| <= |SplitRuns(text)|
    ensures forall n :: n in numbers ==> AllDigits(n) && |n| >= 10
  {
    NormalizedAreDigits(SplitRuns(text));
    Filter(NormalizeAll(SplitRuns(text)), LongEnough)
  }

  lemma NormalizedAreDigits(pieces: seq<string>)
    ensures forall n :: n in NormalizeAll(pieces) ==> AllDigits(n)
  {
    var ns := NormalizeAll(pieces);
    forall n | n in ns ensures AllDigits(n) {
      var i :| 0 <= i < |ns| && ns[i] == n;
      assert n == Normalize(pieces[i]);
    }
  }

  /** The numbers keep the order of the pieces they come from. */
  lemma ParseNumbersInOrder(text: string)
    ensures IsSubsequence(ParseNumbers(text), NormalizeAll(SplitRuns(text)))
  {
    FilterIsSubsequence(NormalizeAll(SplitRuns(text)), LongEnough);
  }

  /** `n` is the digit string of one of the pieces. */
  predicate DigitsOfSomePiece(pieces: seq<string>, n: string) {
    exists i :: 0 <= i < |pieces| && Digits(pieces[i]) == n
  }

  /** A piece survives exactly when it holds at least ten digits, whatever else it holds. */
  lemma ParseNumbersMembership(text: string, n: string)
    ensures n in ParseNumbers(text) <==> |n| >= 10 && DigitsOfSomePiece(SplitRuns(text), n)
  {
    var pieces := SplitRuns(text);
    assert n in ParseNumbers(text) <==> n in NormalizeAll(pieces) && |n| >= 10 by {
      assert ParseNumbers(text) == Filter(NormalizeAll(pieces), LongEnough);
    }
    NormalizedMembership(pieces, n);
  }

  lemma DigitsOfThree(a: string, b: string, c: string)
    ensures Digits(a + b + c) == Digits(a) + Digits(b) + Digits(c)
  {
    DigitsAppend(a + b, c);
    DigitsAppend(a, b);
  }

  lemma NormalizedMembership(pieces: seq<string>, n: string)
    ensures n in NormalizeAll(pieces) <==> DigitsOfSomePiece(pieces, n)
  {
    var ns := NormalizeAll(pieces);
    if n in ns {
      var i :| 0 <= i < |ns| && ns[i] == n;
      assert Digits(pieces[i]) == n;
    }
    if exists i :: 0 <= i < |pieces| && Digits(pieces[i]) == n {
      var i :| 0 <= i < |pieces| && Digits(pieces[i]) == n;
      assert ns[i] == n;
    }
  }

  lemma LocalAreaCode()
    ensures Digits("(11) ") == "11"
  {
  }

  lemma InternationalAreaCode()
    ensures Digits("+55 11 ") == "5511"
  {
  }

  lemma SubscriberHead()
    ensures Digits("99988") == "99988"
  {
  }

  lemma SubscriberTail()
    ensures Digits("-7766") == "7766"
  {
  }

  /** "(11) 99988-7766", one of the documented formats, normalises to its eleven digits. */
  lemma LocalFormat()
    ensures Normalize("(11) " + "99988" + "-7766") == "11" + "99988" + "7766"
  {
    DigitsOfThree("(11) ", "99988", "-7766");
    LocalAreaCode();
    SubscriberHead();
    SubscriberTail();
  }

  /** "+55 11 99988-7766", the international format, keeps the country code. */
  lemma InternationalFormat()
    ensures Normalize("+55 11 " + "99988" + "-7766") == "5511" + "99988" + "7766"
  {
    DigitsOfThree("+55 11 ", "99988", "-7766");
    InternationalAreaCode();
    SubscriberHead();
    SubscriberTail();
  }

  /** What a submission did. */
  datatype SubmitOutcome =
    | EmptyInput      // "Digite pelo menos um número": the text is blank
    | NoValidNumber   // "Nenhum número válido encontrado"
    | Added(numbers: seq<string>)  // handed to `onAddToBlacklist`

  /**
   * The decision `handleSubmit` takes on the text: blank text is refused
   * before any parsing, text yielding no number is refused after it, and
   * otherwise exactly the parsed numbers are handed over — never an empty
   * list, and only valid numbers.
   */
  function Decide(text: string): (outcome: SubmitOutcome)
    ensures outcome == EmptyInput <==> AllSpace(text)
    ensures outcome == NoValidNumber <==> !AllSpace(text) && ParseNumbers(text) == []
    ensures outcome.Added? ==> outcome.numbers == ParseNumbers(text) && outcome.numbers != []
    ensures outcome.Added? ==> forall n :: n in outcome.numbers ==> AllDigits(n) && |n| >= 10
  {
    if Trim(text) == [] then EmptyInput
    else
      var numbers := ParseNumbers(text);
      if |numbers| == 0 then NoValidNumber else Added(numbers)
  }

  /** The dialog's state: whether it is open, the text area and the reason field. */
  class BlacklistForm {
    var open: bool
    var phoneNumbers: string
    var reason: string

    constructor ()
      ensures !open && phoneNumbers == [] && reason == []
    {
      open := false;
      phoneNumbers := [];
      reason := [];
    }

    /** A file's text replaces the text area (the file reading itself is not modelled). */
    method LoadFile(content: string)
      modifies this
      ensures phoneNumbers == content && open == old(open) && reason == old(reason)
    {
      phoneNumbers := content;
    }

    /**
     * `handleSubmit`: blank text is rejected before parsing; text without a
     * valid number is rejected after; both leave the form as it was.
     * Otherwise the parsed numbers go to the caller, and the text, the
     * reason and the open flag are reset.
     */
    method Submit() returns (outcome: SubmitOutcome)
      modifies this
      ensures outcome == Decide(old(phoneNumbers))
      ensures !outcome.Added? ==> open == old(open) && phoneNumbers == old(phoneNumbers) && reason == old(reason)
      ensures outcome.Added? ==> !open && phoneNumbers == [] && reason == []
    {
      outcome := Decide(phoneNumbers);
      if outcome.Added? {
        open := false;
        phoneNumbers := [];
        reason := [];
      }
    }
  }
}
