/**
 * The prompt sent to the provider for one file: a fixed template into which
 * the target language, an optional version clause and the file's path, name
 * and raw content are spliced verbatim.
 */
module PromptBuilder {
  import opened Wrappers
  import opened Types

  /** The version sentinel meaning "let the provider choose". */
  const Latest := "latest"

  /**
   * The fixed stretches of the prompt's template literal, in order; a value
   * is spliced between each two of them.
   */
  datatype Quasi = Intro | Space | Instructions | NameLabel | CodeOpen | CodeClose

  /** The text of each fixed stretch, one template line per literal. */
  function Text(q: Quasi): string
  {
    match q
    case Intro =>
      "\n"
      + "You are Dobby, an expert AI code converter.\n"
      + "\n"
      + "Convert the following file to "
    case Space => " "
    case Instructions =>
      ".\n"
      + "Preserve logic, comments, and structure.\n"
      + "\n"
      + "Output ONLY valid JSON matching this schema:\n"
      + "{\n"
      + "  \"path\": \"<string - file path or name>\",\n"
      + "  \"content\": \"<string - converted file contents>\"\n"
      + "}\n"
      + "\n"
      + "Do not include markdown fences, explanations, or any text outside JSON.\n"
      + "\n"
      + "File Path: "
    case NameLabel => "\nFilename: "
    case CodeOpen => "\nCode:\n```\n"
    case CodeClose => "\n```\n"
  }

  /** Renders a template literal: the fixed stretches with the values spliced between them. */
  function Interpolate(quasis: seq<Quasi>, values: seq<string>): string
    requires |quasis| == |values| + 1
    decreases |values|
  {
    if values == [] then Text(quasis[0])
    else Text(quasis[0]) + values[0] + Interpolate(quasis[1..], values[1..])
  }

  /** `t` occurs in `s` starting at index `i`. */
  predicate IsInfixAt(s: string, t: string, i: int)
  {
    0 <= i && i + |t| <= |s| && s[i..i + |t|] == t
  }

  /** The version clause: nothing for the sentinel, the version in parentheses otherwise. */
  function VersionClause(version: string): (r: string)
    ensures r == "" <==> version == Latest
    ensures r != "" ==> |r| == |version| + 2 && r[0] == '(' && r[1..|r| - 1] == version && r[|r| - 1] == ')'
  {
    if version == Latest then "" else "(" + version + ")"
  }

  /** The file name shown in the prompt: the empty string when the name is absent. */
  function DisplayName(name: Option<string>): (r: string)
    ensures name.None? ==> r == ""
    ensures name.Some? ==> r == name.value
  {
    if name.Some? then name.value else ""
  }

  /** The values spliced into the prompt template, in order. */
  function PromptValues(file: UploadedFile, targetLanguage: string, targetVersion: string): seq<string>
  {
    [targetLanguage, VersionClause(targetVersion), file.path, DisplayName(file.name), file.content]
  }

  /** The rendered prompt for one file. */
  function Prompt(file: UploadedFile, targetLanguage: string, targetVersion: string): string
  {
    Interpolate([Intro, Space, Instructions, NameLabel, CodeOpen, CodeClose], PromptValues(file, targetLanguage, targetVersion))
  }

  /** A six-stretch template renders as its stretches and values, in order. */
  lemma InterpolateSix(quasis: seq<Quasi>, values: seq<string>)
    requires |quasis| == 6 && |values| == 5
    ensures Interpolate(quasis, values)
         == Text(quasis[0]) + values[0] + (Text(quasis[1]) + values[1] + (Text(quasis[2]) + values[2]
            + (Text(quasis[3]) + values[3] + (Text(quasis[4]) + values[4] + Text(quasis[5])))))
  {
    var q, v := quasis, values;
    assert Interpolate(q[5..], v[5..]) == Text(q[5]);
    assert Interpolate(q[4..], v[4..]) == Text(q[4]) + v[4] + Interpolate(q[5..], v[5..]) by {
      assert q[4..][1..] == q[5..] && v[4..][1..] == v[5..];
    }
    assert Interpolate(q[3..], v[3..]) == Text(q[3]) + v[3] + Interpolate(q[4..], v[4..]) by {
      assert q[3..][1..] == q[4..] && v[3..][1..] == v[4..];
    }
    assert Interpolate(q[2..], v[2..]) == Text(q[2]) + v[2] + Interpolate(q[3..], v[3..]) by {
      assert q[2..][1..] == q[3..] && v[2..][1..] == v[3..];
    }
    assert Interpolate(q[1..], v[1..]) == Text(q[1]) + v[1] + Interpolate(q[2..], v[2..]) by {
      assert q[1..][1..] == q[2..] && v[1..][1..] == v[2..];
    }
  }

  /** A string occurs in itself at 0. */
  lemma InfixSelf(s: string)
    ensures IsInfixAt(s, s, 0)
  {
    assert s[0..|s|] == s;
  }

  /** Both halves of an occurrence of `a + b` occur side by side. */
  lemma InfixPiece(s: string, a: string, b: string, i: int)
    requires IsInfixAt(s, a + b, i)
    ensures IsInfixAt(s, a, i) && IsInfixAt(s, b, i + |a|)
  {
    var w := s[i..i + |a| + |b|];
    assert w == a + b;
    assert s[i..i + |a|] == w[..|a|];
    assert s[i + |a|..i + |a| + |b|] == w[|a|..];
  }

  /** The three parts of an occurrence of `t + v + r` occur side by side. */
  lemma InfixStep(s: string, t: string, v: string, r: string, i: int)
    requires IsInfixAt(s, t + v + r, i)
    ensures IsInfixAt(s, t, i) && IsInfixAt(s, v, i + |t|) && IsInfixAt(s, r, i + |t| + |v|)
  {
    InfixPiece(s, t + v, r, i);
    InfixPiece(s, t, v, i);
  }

  /** A prefix of an occurrence occurs at the same place. */
  lemma InfixPrefix(s: string, t: string, i: int, k: nat)
    requires IsInfixAt(s, t, i) && k <= |t|
    ensures IsInfixAt(s, t[..k], i)
  {
    assert s[i..i + k] == s[i..i + |t|][..k];
  }

  /** An occurrence followed by an occurrence of `t` is followed by every prefix of `t`. */
  lemma InfixThenPrefix(s: string, a: string, t: string, i: int, k: nat)
    requires IsInfixAt(s, a, i) && IsInfixAt(s, t, i + |a|) && k <= |t|
    ensures IsInfixAt(s, a + t[..k], i)
  {
    InfixPrefix(s, t, i + |a|, k);
    InfixJoin(s, a, t[..k], i);
  }

  /** Three adjacent occurrences form an occurrence of their concatenation. */
  lemma InfixJoin3(s: string, a: string, b: string, c: string, i: int)
    requires IsInfixAt(s, a, i) && IsInfixAt(s, b, i + |a|) && IsInfixAt(s, c, i + |a| + |b|)
    ensures IsInfixAt(s, a + b + c, i)
  {
    InfixJoin(s, a, b, i);
    InfixJoin(s, a + b, c, i);
  }

  /** Two adjacent occurrences form an occurrence of their concatenation. */
  lemma InfixJoin(s: string, a: string, b: string, i: int)
    requires IsInfixAt(s, a, i) && IsInfixAt(s, b, i + |a|)
    ensures IsInfixAt(s, a + b, i)
  {
    assert s[i..i + |a| + |b|] == s[i..i + |a|] + s[i + |a|..i + |a| + |b|];
  }

  /**
   * Where each stretch and value of a rendered six-stretch template lies,
   * for any strings: `p` is `t0 v0 t1 v1 t2 v2 t3 v3 t4 v4 t5` as the
   * renderer nests them.
   */
  lemma Layout(t0: string, v0: string, t1: string, v1: string, t2: string, v2: string,
               t3: string, v3: string, t4: string, v4: string, t5: string, p: string)
    requires p == t0 + v0 + (t1 + v1 + (t2 + v2 + (t3 + v3 + (t4 + v4 + t5))))
    ensures |p| == |t0| + |v0| + |t1| + |v1| + |t2| + |v2| + |t3| + |v3| + |t4| + |v4| + |t5|
    ensures IsInfixAt(p, t0, 0)
    ensures IsInfixAt(p, v0, |t0|)
    ensures IsInfixAt(p, t1, |t0| + |v0|)
    ensures IsInfixAt(p, v1, |t0| + |v0| + |t1|)
    ensures IsInfixAt(p, t2, |t0| + |v0| + |t1| + |v1|)
    ensures IsInfixAt(p, v2, |t0| + |v0| + |t1| + |v1| + |t2|)
    ensures IsInfixAt(p, t3, |t0| + |v0| + |t1| + |v1| + |t2| + |v2|)
    ensures IsInfixAt(p, v3, |t0| + |v0| + |t1| + |v1| + |t2| + |v2| + |t3|)
    ensures IsInfixAt(p, t4, |t0| + |v0| + |t1| + |v1| + |t2| + |v2| + |t3| + |v3|)
    ensures IsInfixAt(p, v4, |t0| + |v0| + |t1| + |v1| + |t2| + |v2| + |t3| + |v3| + |t4|)
    ensures IsInfixAt(p, t5, |t0| + |v0| + |t1| + |v1| + |t2| + |v2| + |t3| + |v3| + |t4| + |v4|)
  {
    var r3 := t3 + v3 + (t4 + v4 + t5);
    var r1 := t1 + v1 + (t2 + v2 + r3);
    var o1 := |t0| + |v0|;
    var o2 := o1 + |t1| + |v1|;
    InfixSelf(p);
    InfixStep(p, t0, v0, r1, 0);
    LayoutPairs(p, t1, v1, t2, v2, r3, o1);
    LayoutPairs(p, t3, v3, t4, v4, t5, o2 + |t2| + |v2|);
  }

  /** Two stretch-value pairs of an occurrence and what follows them, each at its own place. */
  lemma LayoutPairs(p: string, t1: string, v1: string, t2: string, v2: string, r: string, o: int)
    requires IsInfixAt(p, t1 + v1 + (t2 + v2 + r), o)
    ensures IsInfixAt(p, t1, o)
    ensures IsInfixAt(p, v1, o + |t1|)
    ensures IsInfixAt(p, t2, o + |t1| + |v1|)
    ensures IsInfixAt(p, v2, o + |t1| + |v1| + |t2|)
    ensures IsInfixAt(p, r, o + |t1| + |v1| + |t2| + |v2|)
  {
    InfixStep(p, t1, v1, t2 + v2 + r, o);
    InfixStep(p, t2, v2, r, o + |t1| + |v1|);
  }

  /**
   * In a rendered six-stretch template whose third stretch opens with `d`,
   * the second value is directly followed by `d`.
   */
  lemma LayoutValueThenPrefix(t0: string, v0: string, t1: string, v1: string, t2: string, v2: string,
                              t3: string, v3: string, t4: string, v4: string, t5: string, p: string, d: string)
    requires p == t0 + v0 + (t1 + v1 + (t2 + v2 + (t3 + v3 + (t4 + v4 + t5))))
    requires |d| <= |t2| && t2[..|d|] == d
    ensures IsInfixAt(p, v1 + d, |t0| + |v0| + |t1|)
  {
    Layout(t0, v0, t1, v1, t2, v2, t3, v3, t4, v4, t5, p);
    InfixThenPrefix(p, v1, t2, |t0| + |v0| + |t1|, |d|);
  }

  /** The prompt spelled out: the template's stretches and the values, in order. */
  lemma PromptSpelledOut(file: UploadedFile, targetLanguage: string, targetVersion: string)
    ensures Prompt(file, targetLanguage, targetVersion)
         == Text(Intro) + targetLanguage + (Text(Space) + VersionClause(targetVersion) + (Text(Instructions) + file.path
            + (Text(NameLabel) + DisplayName(file.name) + (Text(CodeOpen) + file.content + Text(CodeClose)))))
  {
    InterpolateSix([Intro, Space, Instructions, NameLabel, CodeOpen, CodeClose],
                   PromptValues(file, targetLanguage, targetVersion));
  }

  /** The opening line of the instructions ends the conversion sentence with a period. */
  lemma InstructionsOpenSentence()
    ensures |Text(Instructions)| >= 2 && Text(Instructions)[..2] == ".\n"
  {
  }

  /**
   * The target is named right after the intro: the language, a space and
   * the version clause (the parenthesised version, or nothing for the
   * sentinel), immediately followed by the instructions, which open with
   * the sentence's period.
   */
  lemma PromptNamesTarget(file: UploadedFile, targetLanguage: string, targetVersion: string)
    ensures IsInfixAt(Prompt(file, targetLanguage, targetVersion), Text(Intro), 0)
    ensures IsInfixAt(Prompt(file, targetLanguage, targetVersion),
                      targetLanguage + Text(Space) + VersionClause(targetVersion), |Text(Intro)|)
    ensures IsInfixAt(Prompt(file, targetLanguage, targetVersion), Text(Instructions),
                      |Text(Intro)| + |targetLanguage| + |Text(Space)| + |VersionClause(targetVersion)|)
  {
    PromptSpelledOut(file, targetLanguage, targetVersion);
    Layout(Text(Intro), targetLanguage, Text(Space), VersionClause(targetVersion), Text(Instructions), file.path,
           Text(NameLabel), DisplayName(file.name), Text(CodeOpen), file.content, Text(CodeClose),
           Prompt(file, targetLanguage, targetVersion));
    InfixJoin3(Prompt(file, targetLanguage, targetVersion), targetLanguage, Text(Space), VersionClause(targetVersion),
               |Text(Intro)|);
  }

  /**
   * The conversion sentence ends right after the version clause: the clause
   * (the parenthesised version, or nothing for the sentinel) is directly
   * followed by the period and the line break.
   */
  lemma PromptClosesTargetSentence(file: UploadedFile, targetLanguage: string, targetVersion: string)
    ensures IsInfixAt(Prompt(file, targetLanguage, targetVersion), VersionClause(targetVersion) + ".\n",
                      |Text(Intro)| + |targetLanguage| + |Text(Space)|)
  {
    PromptSpelledOut(file, targetLanguage, targetVersion);
    InstructionsOpenSentence();
    LayoutValueThenPrefix(Text(Intro), targetLanguage, Text(Space), VersionClause(targetVersion), Text(Instructions),
                          file.path, Text(NameLabel), DisplayName(file.name), Text(CodeOpen), file.content,
                          Text(CodeClose), Prompt(file, targetLanguage, targetVersion), ".\n");
  }


  /**
   * The file's path and name (or the empty string) appear in the prompt
   * verbatim: the path right after the instructions (whose last line is
   * the path label), then the name label, then the name.
   */
  lemma PromptEmbedsPathAndName(file: UploadedFile, targetLanguage: string, targetVersion: string)
    ensures IsInfixAt(Prompt(file, targetLanguage, targetVersion), file.path,
                      |Text(Intro)| + |targetLanguage| + |Text(Space)| + |VersionClause(targetVersion)| + |Text(Instructions)|)
    ensures IsInfixAt(Prompt(file, targetLanguage, targetVersion), Text(NameLabel),
                      |Text(Intro)| + |targetLanguage| + |Text(Space)| + |VersionClause(targetVersion)| + |Text(Instructions)|
                      + |file.path|)
    ensures IsInfixAt(Prompt(file, targetLanguage, targetVersion), DisplayName(file.name),
                      |Text(Intro)| + |targetLanguage| + |Text(Space)| + |VersionClause(targetVersion)| + |Text(Instructions)|
                      + |file.path| + |Text(NameLabel)|)
  {
    PromptSpelledOut(file, targetLanguage, targetVersion);
    Layout(Text(Intro), targetLanguage, Text(Space), VersionClause(targetVersion), Text(Instructions), file.path,
           Text(NameLabel), DisplayName(file.name), Text(CodeOpen), file.content, Text(CodeClose),
           Prompt(file, targetLanguage, targetVersion));
  }

  /**
   * The file's content appears in the prompt verbatim inside the code
   * fence, which opens right after the name and closes at the very end of
   * the prompt.
   */
  lemma PromptEmbedsContent(file: UploadedFile, targetLanguage: string, targetVersion: string)
    ensures IsInfixAt(Prompt(file, targetLanguage, targetVersion), Text(CodeOpen),
                      |Text(Intro)| + |targetLanguage| + |Text(Space)| + |VersionClause(targetVersion)| + |Text(Instructions)|
                      + |file.path| + |Text(NameLabel)| + |DisplayName(file.name)|)
    ensures IsInfixAt(Prompt(file, targetLanguage, targetVersion), file.content,
                      |Text(Intro)| + |targetLanguage| + |Text(Space)| + |VersionClause(targetVersion)| + |Text(Instructions)|
                      + |file.path| + |Text(NameLabel)| + |DisplayName(file.name)|
                      + |Text(CodeOpen)|)
    ensures IsInfixAt(Prompt(file, targetLanguage, targetVersion), Text(CodeClose),
                      |Text(Intro)| + |targetLanguage| + |Text(Space)| + |VersionClause(targetVersion)| + |Text(Instructions)|
                      + |file.path| + |Text(NameLabel)| + |DisplayName(file.name)|
                      + |Text(CodeOpen)| + |file.content|)
    ensures |Prompt(file, targetLanguage, targetVersion)|
         == |Text(Intro)| + |targetLanguage| + |Text(Space)| + |VersionClause(targetVersion)| + |Text(Instructions)|
            + |file.path| + |Text(NameLabel)| + |DisplayName(file.name)| + |Text(CodeOpen)| + |file.content| + |Text(CodeClose)|
  {
    PromptSpelledOut(file, targetLanguage, targetVersion);
    Layout(Text(Intro), targetLanguage, Text(Space), VersionClause(targetVersion), Text(Instructions), file.path,
           Text(NameLabel), DisplayName(file.name), Text(CodeOpen), file.content, Text(CodeClose),
           Prompt(file, targetLanguage, targetVersion));
  }
}
