/**
 * The spintext preview of the template editor. The preview is two
 * passes over the template text:
 *  1. every `{{nome}}` is replaced by the preview name, left to right,
 *     occurrences not overlapping;
 *  2. one left-to-right scan for the pattern `{([^}]+)}` replaces each
 *     group — a `{`, one or more characters other than `}`, then `}` — by
 *     the part of its content before the first `|`.
 * Both passes are explicit scanners over the text rather than regular
 * expressions.
 */
module TemplateBuilder {
  import opened Options
  import opened Strings

  /** The only variable the preview resolves. */
  const NameVariable: string := "{{nome}}"

  /**
   * The template the editor opens with,
   * "{Oi|Fala|E aí} {{nome}}, hoje tem {feijoada|baião de dois|torta de frango}! Vem garantir o seu 😋",
   * written as its pieces: two groups, the variable and the text around them.
   */
  const DefaultTemplate: string :=
    Braced("Oi" + "|" + "Fala|E aí")
    + (" " + (NameVariable + (", hoje tem "
    + (Braced("feijoada" + "|" + "baião de dois|torta de frango") + "! Vem garantir o seu \U{1F60B}"))))

  /** The preview name the editor opens with. */
  const DefaultPreviewName: string := "João"

  /** A group of options written out: `{`, the options, `}`. */
  function Braced(content: string): (g: string)
    ensures |g| == |content| + 2 && g[0] == '{' && g[|g| - 1] == '}'
    ensures g[1..|g| - 1] == content
  {
    ['{'] + content + ['}']
  }

  // ---------------------------------------------------------------------
  // Pass 1: the name variable
  // ---------------------------------------------------------------------

  /**
   * `s.replace(/{{nome}}/g, name)`: the scan tries the variable at each
   * position; on a hit it emits the name and resumes after the variable,
   * otherwise it copies one character.
   */
  function ReplaceName(s: string, name: string): string
    decreases |s|
  {
    if OccursAt(s, NameVariable, 0) then name + ReplaceName(s[|NameVariable|..], name)
    else if s == [] then []
    else [s[0]] + ReplaceName(s[1..], name)
  }

  /** An occurrence in `s[1..]` is an occurrence in `s`, one position on. */
  lemma OccursShift(s: string, p: nat)
    requires |s| >= 1
    ensures OccursAt(s[1..], NameVariable, p) <==> OccursAt(s, NameVariable, p + 1)
  {
    if p + 1 + |NameVariable| <= |s| {
      assert s[1..][p..p + |NameVariable|] == s[p + 1..p + 1 + |NameVariable|];
    }
  }

  /** Text holding no occurrence of the variable comes back unchanged. */
  lemma {:induction false} ReplaceNameNoOccurrence(s: string, name: string)
    requires !Contains(s, NameVariable)
    ensures ReplaceName(s, name) == s
    decreases |s|
  {
    if s != [] {
      assert !OccursAt(s, NameVariable, 0);
      forall p: nat | p <= |s[1..]| ensures !OccursAt(s[1..], NameVariable, p) {
        OccursShift(s, p);
      }
      ReplaceNameNoOccurrence(s[1..], name);
      assert s == [s[0]] + s[1..];
    }
  }

  /** Up to the first occurrence of the variable, the name pass copies the text. */
  lemma {:induction false} ReplaceNameCopiesPrefix(s: string, name: string, i: nat)
    requires i <= |s|
    requires forall p: nat :: p < i ==> !OccursAt(s, NameVariable, p)
    ensures ReplaceName(s, name) == s[..i] + ReplaceName(s[i..], name)
  {
    if i > 0 {
      var t := s[1..];
      assert ReplaceName(s, name) == [s[0]] + ReplaceName(t, name) by {
        assert !OccursAt(s, NameVariable, 0);
      }
      assert ReplaceName(t, name) == t[..i - 1] + ReplaceName(s[i..], name) by {
        forall p: nat | p < i - 1 ensures !OccursAt(t, NameVariable, p) {
          OccursShift(s, p);
        }
        ReplaceNameCopiesPrefix(t, name, i - 1);
        assert t[i - 1..] == s[i..];
      }
      PrependPrefix(s, i, ReplaceName(s[i..], name));
    }
  }

  /**
   * The leftmost occurrence of the variable is the one replaced: the text
   * before it is kept verbatim, the name takes its place and the scan
   * resumes right after it.
   */
  lemma ReplaceNameLeftmost(s: string, name: string, i: nat)
    requires OccursAt(s, NameVariable, i)
    requires forall p: nat :: p < i ==> !OccursAt(s, NameVariable, p)
    ensures ReplaceName(s, name) == s[..i] + (name + ReplaceName(s[i + |NameVariable|..], name))
  {
    ReplaceNameCopiesPrefix(s, name, i);
    var u := s[i..];
    assert ReplaceName(u, name) == name + ReplaceName(u[|NameVariable|..], name) by {
      assert u[..|NameVariable|] == s[i..i + |NameVariable|];
    }
    assert u[|NameVariable|..] == s[i + |NameVariable|..];
  }

  /**
   * Text in which every `{` is directly followed by another character
   * that is not `{` cannot hold the start of the variable, so it passes
   * through unchanged in front of whatever follows.
   */
  lemma {:induction false} ReplaceNameSkipsText(p: string, rest: string, name: string)
    requires forall i :: 0 <= i < |p| && p[i] == '{' ==> i + 1 < |p| && p[i + 1] != '{'
    ensures ReplaceName(p + rest, name) == p + ReplaceName(rest, name)
  {
    if p == [] {
      assert p + rest == rest;
    } else {
      var s := p + rest;
      if |s| >= |NameVariable| {
        if p[0] != '{' {
          assert s[..|NameVariable|][0] != NameVariable[0];
        } else {
          assert s[..|NameVariable|][1] != NameVariable[1];
        }
      }
      assert !OccursAt(s, NameVariable, 0);
      assert ReplaceName(s, name) == [s[0]] + ReplaceName(s[1..], name);
      assert s[1..] == p[1..] + rest;
      ReplaceNameSkipsText(p[1..], rest, name);
      assert p == [p[0]] + p[1..];
    }
  }

  // ---------------------------------------------------------------------
  // Pass 2: the spintext groups
  // ---------------------------------------------------------------------

  /** Position of the first `}` in `s`, if there is one. */
  function FirstClose(s: string): (k: Option<nat>)
    ensures k.Some? ==> k.value < |s| && s[k.value] == '}'
  {
    if s == [] then None
    else if s[0] == '}' then Some(0)
    else match FirstClose(s[1..])
      case Some(k) => Some(k + 1)
      case None => None
  }

  /** No `}` comes before the one FirstClose finds, and when it finds none there is none. */
  lemma {:induction false} FirstCloseIsFirst(s: string)
    ensures FirstClose(s).Some? ==> forall m :: 0 <= m < FirstClose(s).value ==> s[m] != '}'
    ensures FirstClose(s).None? ==> forall m :: 0 <= m < |s| ==> s[m] != '}'
  {
    if s != [] && s[0] != '}' {
      FirstCloseIsFirst(s[1..]);
    }
  }

  /**
   * `options.split('|')[0]`: the text of a group before its first `|`
   * (all of it when there is no `|`). Written as a scan up to the first
   * `|`; FirstOptionIsFirstPiece shows it is the first piece of the split.
   */
  function FirstOption(content: string): (r: string)
    ensures |r| <= |content| && r == content[..|r|]
    ensures '|' !in r
    ensures |r| < |content| ==> content[|r|] == '|'
  {
    if content == [] || content[0] == '|' then []
    else
      var r := [content[0]] + FirstOption(content[1..]);
      assert content == [content[0]] + content[1..];
      r
  }

  /** The scan and `split('|')[0]` agree on every text. */
  lemma {:induction false} FirstOptionIsFirstPiece(content: string)
    ensures FirstOption(content) == Split(content, '|')[0]
  {
    if content != [] && content[0] != '|' {
      FirstOptionIsFirstPiece(content[1..]);
    }
  }

  /** Options without `|` are a single option, kept whole. */
  lemma FirstOptionWhole(content: string)
    requires '|' !in content
    ensures FirstOption(content) == content
  {
    FirstOptionIsFirstPiece(content);
    NoSeparatorIsOnePiece(content, '|');
  }

  /**
   * The regular expression `{([^}]+)}` matches `s[i..j+1]`: a `{` at `i`,
   * the first `}` after it at `j`, and at least one character between.
   */
  predicate GroupAt(s: string, i: nat, j: nat) {
    i + 2 <= j < |s| && s[i] == '{' && s[j] == '}' && forall m :: i < m < j ==> s[m] != '}'
  }

  /** Length of the content of the group that starts at `s[0]`, or 0 when none starts there. */
  function GroupLength(s: string): (k: nat)
    ensures k > 0 ==> k + 2 <= |s|
  {
    if s == [] || s[0] != '{' then 0
    else match FirstClose(s[1..])
      case Some(k) => k
      case None => 0
  }

  /**
   * The global replace with the first option: at a `{` whose first later
   * `}` is at least two positions on, the group is replaced and the scan
   * resumes after its `}`; any other character is copied and the scan
   * moves on by one. The result is never longer than the input.
   */
  function Spin(s: string): (r: string)
    ensures |r| <= |s|
    decreases |s|
  {
    if s == [] then []
    else
      var k := GroupLength(s);
      if k > 0 then FirstOption(s[1..1 + k]) + Spin(s[k + 2..])
      else [s[0]] + Spin(s[1..])
  }

  /** A group starts at `s[0]` exactly when GroupLength finds one, and it ends where GroupLength says. */
  lemma GroupAtStart(s: string, j: nat)
    requires |s| >= 1
    ensures GroupAt(s, 0, j) <==> GroupLength(s) > 0 && j == GroupLength(s) + 1
  {
    var t := s[1..];
    FirstCloseIsFirst(t);
    if GroupAt(s, 0, j) {
      assert t[j - 1] == '}';
      var fc := FirstClose(t);
      if fc.Some? {
        assert s[fc.value + 1] == '}';
        assert fc.value + 1 >= j;
      }
      assert fc.Some? && fc.value == j - 1;
    }
    if GroupLength(s) > 0 && j == GroupLength(s) + 1 {
      forall m | 0 < m < j ensures s[m] != '}' {
        assert s[m] == t[m - 1];
      }
    }
  }

  /** Shifting a text by one character shifts its groups. */
  lemma GroupShift(s: string, i: nat, j: nat)
    requires |s| >= 1
    ensures GroupAt(s, i + 1, j + 1) <==> GroupAt(s[1..], i, j)
  {
    if GroupAt(s[1..], i, j) {
      forall m | i + 1 < m < j + 1 ensures s[m] != '}' {
        assert s[m] == s[1..][m - 1];
      }
    }
  }

  /**
   * Text holding no group — no `{` at all, only empty braces `{}`, or a
   * `{` with no `}` after it — comes back verbatim.
   */
  lemma {:induction false} SpinNoGroup(s: string)
    requires forall i: nat, j: nat :: !GroupAt(s, i, j)
    ensures Spin(s) == s
    decreases |s|
  {
    if s != [] {
      GroupAtStart(s, GroupLength(s) + 1);
      assert GroupLength(s) == 0;
      forall i: nat, j: nat ensures !GroupAt(s[1..], i, j) {
        GroupShift(s, i, j);
      }
      SpinNoGroup(s[1..]);
      assert s == [s[0]] + s[1..];
    }
  }

  /** A text without `{` has no group, so it comes back unchanged. */
  lemma SpinNoBrace(s: string)
    requires '{' !in s
    ensures Spin(s) == s
  {
    forall i: nat, j: nat ensures !GroupAt(s, i, j) {
      if i < |s| {
        assert s[i] in s;
      }
    }
    SpinNoGroup(s);
  }

  /** A text without `}` has no group either: an unterminated `{` stays. */
  lemma SpinNoClose(s: string)
    requires '}' !in s
    ensures Spin(s) == s
  {
    forall i: nat, j: nat ensures !GroupAt(s, i, j) {
      if j < |s| {
        assert s[j] in s;
      }
    }
    SpinNoGroup(s);
  }

  /** At a group the scan emits the group's first option and resumes after its `}`. */
  lemma SpinAtGroup(s: string, j: nat)
    requires GroupAt(s, 0, j)
    ensures Spin(s) == FirstOption(s[1..j]) + Spin(s[j + 1..])
  {
    assert GroupLength(s) == j - 1 by {
      GroupAtStart(s, j);
    }
  }

  lemma SpinAtGroupSlices(u: string, k: nat, x: string, y: string)
    requires GroupAt(u, 0, k)
    requires x == u[1..k] && y == u[k + 1..]
    ensures Spin(u) == FirstOption(x) + Spin(y)
  {
    SpinAtGroup(u, k);
  }

  /** Where no group starts, the scan copies one character and moves on. */
  lemma SpinAtText(s: string)
    requires |s| >= 1 && forall q: nat :: !GroupAt(s, 0, q)
    ensures Spin(s) == [s[0]] + Spin(s[1..])
  {
    GroupAtStart(s, GroupLength(s) + 1);
    assert GroupLength(s) == 0;
  }

  lemma NoEarlierGroupShift(s: string, i: nat)
    requires |s| >= 1 && i >= 1
    requires forall p: nat, q: nat :: p < i ==> !GroupAt(s, p, q)
    ensures forall p: nat, q: nat :: p < i - 1 ==> !GroupAt(s[1..], p, q)
  {
    forall p: nat, q: nat | p < i - 1 ensures !GroupAt(s[1..], p, q) {
      GroupShift(s, p, q);
    }
  }

  /** Putting the first character back in front of the text before a position. */
  lemma PrependPrefix(s: string, i: nat, x: string)
    requires 1 <= i <= |s|
    ensures [s[0]] + (s[1..][..i - 1] + x) == s[..i] + x
  {
    assert s[..i] == [s[0]] + s[1..][..i - 1];
  }

  /** Up to the first position where a group starts, the scan copies the text. */
  lemma {:induction false} SpinCopiesPrefix(s: string, i: nat)
    requires i <= |s|
    requires forall p: nat, q: nat :: p < i ==> !GroupAt(s, p, q)
    ensures Spin(s) == s[..i] + Spin(s[i..])
  {
    if i > 0 {
      var t := s[1..];
      assert Spin(s) == [s[0]] + Spin(t) by {
        SpinAtText(s);
      }
      assert Spin(t) == t[..i - 1] + Spin(s[i..]) by {
        NoEarlierGroupShift(s, i);
        SpinCopiesPrefix(t, i - 1);
        assert t[i - 1..] == s[i..];
      }
      PrependPrefix(s, i, Spin(s[i..]));
    }
  }

  /** A group at `i` is a group at the start of the text from `i` on. */
  lemma GroupFrom(s: string, i: nat, j: nat)
    requires GroupAt(s, i, j)
    ensures GroupAt(s[i..], 0, j - i)
  {
    forall m | 0 < m < j - i ensures s[i..][m] != '}' {
      assert s[i..][m] == s[i + m];
    }
  }

  lemma SlicesFrom(s: string, i: nat, j: nat)
    requires i < j < |s|
    ensures s[i..][1..j - i] == s[i + 1..j] && s[i..][j - i + 1..] == s[j + 1..]
  {
  }

  /** From a group on, the scan emits the group's first option and resumes after its `}`. */
  lemma SpinFromGroup(s: string, i: nat, j: nat)
    requires GroupAt(s, i, j)
    ensures Spin(s[i..]) == FirstOption(s[i + 1..j]) + Spin(s[j + 1..])
  {
    GroupFrom(s, i, j);
    SpinAtGroupSlices(s[i..], j - i, s[i + 1..j], s[j + 1..]);
  }

  /**
   * The leftmost group is the one replaced: the text before it is kept,
   * the group becomes its first option and the scan resumes after its
   * `}`. With SpinNoGroup this fixes the result for every text.
   */
  lemma SpinLeftmost(s: string, i: nat, j: nat)
    requires GroupAt(s, i, j)
    requires forall p: nat, q: nat :: p < i ==> !GroupAt(s, p, q)
    ensures Spin(s) == s[..i] + (FirstOption(s[i + 1..j]) + Spin(s[j + 1..]))
  {
    SpinCopiesPrefix(s, i);
    SpinFromGroup(s, i, j);
  }

  /** A text holding a group comes out at least two characters shorter: the braces go. */
  lemma {:induction false} SpinShortens(s: string, i: nat, j: nat)
    requires GroupAt(s, i, j)
    ensures |Spin(s)| + 2 <= |s|
    decreases |s|
  {
    if GroupLength(s) == 0 {
      GroupAtStart(s, j);
      assert i != 0;
      GroupShift(s, i - 1, j - 1);
      SpinShortens(s[1..], i - 1, j - 1);
    }
  }

  /** A group written in front of other text: `{content}` becomes content's first option. */
  lemma GroupInFront(content: string, rest: string)
    requires content != [] && '}' !in content
    ensures Spin(Braced(content) + rest) == FirstOption(content) + Spin(rest)
  {
    var s := Braced(content) + rest;
    var j := |content| + 1;
    assert GroupAt(s, 0, j) by {
      forall m | 0 < m < j ensures s[m] != '}' {
        assert s[m] == content[m - 1];
        assert content[m - 1] in content;
      }
    }
    assert Spin(s) == FirstOption(s[1..j]) + Spin(s[j + 1..]) by {
      SpinAtGroup(s, j);
    }
    BracedSlices(content, rest);
  }

  lemma BracedSlices(content: string, rest: string)
    ensures var s := Braced(content) + rest;
      s[1..|content| + 1] == content && s[|content| + 2..] == rest
  {
  }

  /** Text without `{` written in front of other text is copied as it is. */
  lemma {:induction false} TextInFront(p: string, rest: string)
    requires '{' !in p
    ensures Spin(p + rest) == p + Spin(rest)
  {
    if p == [] {
      assert p + rest == rest;
    } else {
      var s := p + rest;
      assert Spin(s) == [p[0]] + Spin(p[1..] + rest) by {
        assert s[0] == p[0] && p[0] in p;
        assert GroupLength(s) == 0;
        assert s[1..] == p[1..] + rest;
      }
      assert Spin(p[1..] + rest) == p[1..] + Spin(rest) by {
        assert p == [p[0]] + p[1..];
        TextInFront(p[1..], rest);
      }
      Reattach(p, Spin(rest));
    }
  }

  /** Putting the first character back in front of the rest. */
  lemma Reattach(p: string, x: string)
    requires p != []
    ensures [p[0]] + (p[1..] + x) == p + x
  {
    assert p == [p[0]] + p[1..];
  }

  /**
   * The scan does not look at its own output: any other double-brace
   * variable such as `{{prato}}` loses one pair of braces and is left as
   * `{prato}`, not resolved.
   */
  lemma OtherVariableSingleBrace(v: string)
    requires '}' !in v && '|' !in v
    ensures Spin("{{" + v + "}}") == "{" + v + "}"
  {
    var g := "{" + v;
    DoubleBraced(v);
    assert g != [] && '}' !in g;
    assert Spin(Braced(g) + "}") == FirstOption(g) + Spin("}") by {
      GroupInFront(g, "}");
    }
    assert Spin("}") == "}" by {
      SpinNoBrace("}");
    }
    FirstOptionWhole(g);
  }

  lemma DoubleBraced(v: string)
    ensures "{{" + v + "}}" == Braced("{" + v) + "}"
  {
    assert "{{" + v + "}}" == ['{'] + ("{" + v) + ['}'] + "}";
  }

  // ---------------------------------------------------------------------
  // The preview
  // ---------------------------------------------------------------------

  /**
   * `generatePreview`: the name pass, then the spintext pass. The name
   * must not hold `$`, which `String.prototype.replace` would read as a
   * substitution pattern. A template with no `{` comes back unchanged.
   */
  function GeneratePreview(template: string, name: string): (preview: string)
    requires '$' !in name
    ensures '{' !in template ==> preview == template
  {
    assert '{' !in template ==> Spin(ReplaceName(template, name)) == template by {
      if '{' !in template {
        forall i: nat | i <= |template| ensures !OccursAt(template, NameVariable, i) {
          if i + |NameVariable| <= |template| {
            assert template[i..i + |NameVariable|][0] == template[i];
            assert template[i] in template;
          }
        }
        ReplaceNameNoOccurrence(template, name);
        SpinNoBrace(template);
      }
    }
    Spin(ReplaceName(template, name))
  }

  /** A group whose options hold no `{` cannot start the variable, so the name pass copies it. */
  lemma ReplaceNameSkipsGroup(content: string, rest: string, name: string)
    requires content != [] && '{' !in content
    ensures ReplaceName(Braced(content) + rest, name) == Braced(content) + ReplaceName(rest, name)
  {
    var g := Braced(content);
    forall i | 0 < i < |g| ensures g[i] != '{' {
      if i <= |content| {
        assert g[i] == content[i - 1];
        assert content[i - 1] in content;
      }
    }
    assert g[1] == content[0];
    assert content[0] in content;
    ReplaceNameSkipsText(g, rest, name);
  }

  /** Text without `{` cannot start the variable either. */
  lemma ReplaceNameSkipsPlain(p: string, rest: string, name: string)
    requires '{' !in p
    ensures ReplaceName(p + rest, name) == p + ReplaceName(rest, name)
  {
    forall i | 0 <= i < |p| ensures p[i] != '{' {
      assert p[i] in p;
    }
    ReplaceNameSkipsText(p, rest, name);
  }

  /** At the variable the name pass emits the name and goes on after it. */
  lemma ReplaceNameAtVariable(rest: string, name: string)
    ensures ReplaceName(NameVariable + rest, name) == name + ReplaceName(rest, name)
  {
    assert (NameVariable + rest)[..|NameVariable|] == NameVariable;
    assert (NameVariable + rest)[|NameVariable|..] == rest;
  }

  /** The first option of a list written as a first option, `|` and further options. */
  lemma FirstOptionBeforeBar(first: string, more: string)
    requires '|' !in first
    ensures FirstOption(first + "|" + more) == first
  {
    FirstOptionIsFirstPiece(first + "|" + more);
    SplitPrefix(first, more, '|');
  }

  /**
   * The shape of the opening template: a group, text, the variable, text,
   * a group and closing text. Its preview is the first option of each
   * group with the name in place of the variable.
   */
  lemma {:induction false} PreviewOfShape(f1: string, r1: string, a: string, b: string, f2: string, r2: string, c: string, name: string)
    requires '$' !in name && '{' !in name
    requires '{' !in f1 && '}' !in f1 && '|' !in f1 && '{' !in r1 && '}' !in r1
    requires '{' !in f2 && '}' !in f2 && '|' !in f2 && '{' !in r2 && '}' !in r2
    requires '{' !in a && '{' !in b && '{' !in c
    ensures GeneratePreview(Braced(f1 + "|" + r1) + (a + (NameVariable + (b + (Braced(f2 + "|" + r2) + c)))), name)
         == f1 + (a + (name + (b + (f2 + c))))
  {
    var g1, g2 := f1 + "|" + r1, f2 + "|" + r2;
    assert g1 != [] && '{' !in g1 && '}' !in g1 && g2 != [] && '{' !in g2 && '}' !in g2;
    var tail := Braced(g2) + c;
    assert ReplaceName(tail, name) == tail by {
      ReplaceNameSkipsGroup(g2, c, name);
      ReplaceNameSkipsPlain(c, [], name);
      assert c + [] == c;
    }
    var named := Braced(g1) + (a + (name + (b + tail)));
    assert ReplaceName(Braced(g1) + (a + (NameVariable + (b + tail))), name) == named by {
      ReplaceNameSkipsPlain(b, tail, name);
      ReplaceNameAtVariable(b + tail, name);
      ReplaceNameSkipsPlain(a, NameVariable + (b + tail), name);
      ReplaceNameSkipsGroup(g1, a + (NameVariable + (b + tail)), name);
    }
    assert Spin(tail) == f2 + c by {
      GroupInFront(g2, c);
      SpinNoBrace(c);
      FirstOptionBeforeBar(f2, r2);
    }
    assert Spin(named) == f1 + (a + (name + (b + (f2 + c)))) by {
      TextInFront(b, tail);
      TextInFront(name, b + tail);
      TextInFront(a, name + (b + tail));
      GroupInFront(g1, a + (name + (b + tail)));
      FirstOptionBeforeBar(f1, r1);
    }
  }

  lemma GreetingPieces()
    ensures '{' !in "Oi" && '}' !in "Oi" && '|' !in "Oi"
    ensures '{' !in "Fala|E aí" && '}' !in "Fala|E aí"
  {
  }

  lemma DishPieces()
    ensures '{' !in "feijoada" && '}' !in "feijoada" && '|' !in "feijoada"
    ensures '{' !in "baião de dois|torta de frango" && '}' !in "baião de dois|torta de frango"
  {
  }

  lemma TextPieces()
    ensures '$' !in DefaultPreviewName && '{' !in DefaultPreviewName
    ensures '{' !in " " && '{' !in ", hoje tem " && '{' !in "! Vem garantir o seu \U{1F60B}"
  {
  }

  /** The editor's opening template previews with the opening name as "Oi João, hoje tem feijoada! Vem garantir o seu 😋". */
  lemma DefaultPreview()
    ensures GeneratePreview(DefaultTemplate, DefaultPreviewName)
         == "Oi" + (" " + ("João" + (", hoje tem " + ("feijoada" + "! Vem garantir o seu \U{1F60B}"))))
  {
    GreetingPieces();
    DishPieces();
    TextPieces();
    PreviewOfShape("Oi", "Fala|E aí", " ", ", hoje tem ", "feijoada", "baião de dois|torta de frango",
      "! Vem garantir o seu \U{1F60B}", DefaultPreviewName);
  }
}
