/**
 * The prompt builder `generate_prompt` (app.py): one string made of a fixed
 * header, four labelled lines holding the profile fields, and a fixed block
 * of instructions asking for 15 numbered questions.
 */
module Prompt {
  import opened Wrappers
  import opened Decimal

  /** First line of every prompt. */
  const Header: string := "Generate an AI/ML interview prompt based on the following details:\n"

  /** Input-independent instructions closing every prompt. */
  const Instructions: string :=
    "Generate 15 interview questions based on the overall experience level and skill set, not skill-wise. "
    + "Format the questions as follows:\n"
    + "1.\n\n"
    + "2.\n\n"
    + "3.\n\n"
    + "...\n"
    + "15."

  /** Characters of a prompt that do not come from the inputs: header, labels, newlines, instructions. */
  const Overhead: nat := 282

  /** The four fields a prompt restates. */
  datatype Fields = Fields(fullName: string, years: nat, desiredPositions: string, techStack: string)

  predicate StartsWith(s: string, prefix: string) {
    |prefix| <= |s| && s[..|prefix|] == prefix
  }

  predicate EndsWith(s: string, suffix: string) {
    |suffix| <= |s| && s[|s| - |suffix|..] == suffix
  }

  /** `needle` occurs in `hay` starting at index `k`. */
  predicate OccursAt(hay: string, needle: string, k: int) {
    0 <= k && k + |needle| <= |hay| && hay[k..k + |needle|] == needle
  }

  /** `needle` is a contiguous substring of `hay`. */
  predicate Contains(hay: string, needle: string) {
    exists k :: 0 <= k <= |hay| - |needle| && OccursAt(hay, needle, k)
  }

  /** The labelled line holding the name. */
  function NameLine(fullName: string): (l: string)
    ensures |l| == 7 + |fullName|
  {
    "Name: " + fullName + "\n"
  }

  /** The labelled line holding the years, rendered as `str` renders an int. */
  function ExperienceLine(years: nat): (l: string)
    ensures |l| == 21 + DigitCount(years)
  {
    "Experience: " + NatToDecimal(years) + " year(s)" + "\n"
  }

  /** The labelled line holding the desired positions. */
  function PositionsLine(desiredPositions: string): (l: string)
    ensures |l| == 20 + |desiredPositions|
  {
    "Desired Positions: " + desiredPositions + "\n"
  }

  /** The labelled line holding the tech stack, followed by a blank line. */
  function TechStackLine(techStack: string): (l: string)
    ensures |l| == 14 + |techStack|
  {
    "Tech Stack: " + techStack + "\n" + "\n"
  }

  /**
   * The prompt with the two fixed texts as parameters. Proofs about the
   * shape of a prompt are done here, where they need not look inside the
   * fixed texts.
   */
  function PromptWith(header: string, instructions: string,
                      fullName: string, years: nat, desiredPositions: string, techStack: string): string
  {
    header + NameLine(fullName) + ExperienceLine(years) + PositionsLine(desiredPositions)
    + TechStackLine(techStack) + instructions
  }

  /**
   * `generate_prompt(full_name, years_of_experience, desired_positions, tech_stack)`:
   * a single concatenation, so it is total and has no failure case.
   */
  function GeneratePrompt(fullName: string, years: nat, desiredPositions: string, techStack: string): string
  {
    PromptWith(Header, Instructions, fullName, years, desiredPositions, techStack)
  }

  // ---------------------------------------------------------------------------
  // Facts about concatenations of arbitrary strings.

  lemma PiecesOccur(h: string, a: string, b: string, c: string, d: string, i: string)
    ensures StartsWith(h + a + b + c + d + i, h)
    ensures OccursAt(h + a + b + c + d + i, a, |h|)
    ensures OccursAt(h + a + b + c + d + i, b, |h| + |a|)
    ensures OccursAt(h + a + b + c + d + i, c, |h| + |a| + |b|)
    ensures OccursAt(h + a + b + c + d + i, d, |h| + |a| + |b| + |c|)
    ensures EndsWith(h + a + b + c + d + i, i)
  {
    var p := h + a + b + c + d + i;
    assert p[..|h|] == h by {
      assert p == h + (a + b + c + d + i);
    }
    assert p[|h|..|h| + |a|] == a by {
      assert p == (h + a) + (b + c + d + i);
    }
    assert p[|h| + |a|..|h| + |a| + |b|] == b by {
      assert p == (h + a + b) + (c + d + i);
    }
    assert p[|h| + |a| + |b|..|h| + |a| + |b| + |c|] == c by {
      assert p == (h + a + b + c) + (d + i);
    }
  }

  lemma OccursAtPrefix(hay: string, needle: string, rest: string, k: int)
    requires OccursAt(hay, needle + rest, k)
    ensures OccursAt(hay, needle, k)
  {
    assert hay[k..k + |needle|] == (needle + rest)[..|needle|];
  }

  lemma EndsWithTrans(s: string, t: string, u: string)
    requires EndsWith(s, t) && EndsWith(t, u)
    ensures EndsWith(s, u)
  {
    assert s[|s| - |u|..] == s[|s| - |t|..][|t| - |u|..];
  }

  lemma Assoc3(a: string, b: string, c: string)
    ensures a + (b + c) == a + b + c
  {
  }

  lemma Assoc5(a: string, b: string, c: string, d: string, e: string)
    ensures a + b + c + d + e == a + (b + (c + d + e))
  {
  }

  lemma Assoc6(h: string, a: string, b: string, c: string, d: string, i: string)
    ensures h + a + b + c + d + i == h + (a + (b + (c + (d + i))))
  {
  }

  lemma Regroup(h: string, a: string, b: string, c: string, d: string, i: string)
    ensures h + a + b + c + d + i == h + (a + b + c) + d + i
  {
  }

  /** The same eleven pieces, grouped as two different name and position fields. */
  lemma ChainAssoc(n: string, x: string, nl: string, e1: string, p: string, d: string, e2: string, e: string)
    ensures (n + x + nl) + e1 + (p + (d + nl + e2 + p + e) + nl)
         == (n + (x + nl + e1 + p + d) + nl) + e2 + (p + e + nl)
  {
  }

  // ---------------------------------------------------------------------------
  // The shape of a prompt, for any fixed texts.

  lemma FrameWith(h: string, i: string, fullName: string, years: nat, desiredPositions: string, techStack: string)
    ensures var p := PromptWith(h, i, fullName, years, desiredPositions, techStack);
            StartsWith(p, h) && EndsWith(p, i)
            && |p| == |h| + 62 + |i| + |fullName| + |desiredPositions| + |techStack| + DigitCount(years)
  {
    PiecesOccur(h, NameLine(fullName), ExperienceLine(years), PositionsLine(desiredPositions),
                TechStackLine(techStack), i);
  }

  lemma LayoutWith(h: string, i: string, fullName: string, years: nat, desiredPositions: string, techStack: string)
    ensures var p := PromptWith(h, i, fullName, years, desiredPositions, techStack);
            OccursAt(p, NameLine(fullName), |h|)
            && OccursAt(p, ExperienceLine(years), |h| + 7 + |fullName|)
            && OccursAt(p, PositionsLine(desiredPositions), |h| + 28 + |fullName| + DigitCount(years))
            && OccursAt(p, TechStackLine(techStack), |h| + 48 + |fullName| + DigitCount(years) + |desiredPositions|)
  {
    PiecesOccur(h, NameLine(fullName), ExperienceLine(years), PositionsLine(desiredPositions),
                TechStackLine(techStack), i);
  }

  lemma MentionsWith(h: string, i: string, fullName: string, years: nat, desiredPositions: string, techStack: string)
    ensures var p := PromptWith(h, i, fullName, years, desiredPositions, techStack);
            Contains(p, "Name: " + fullName)
            && Contains(p, "Experience: " + NatToDecimal(years) + " year(s)")
            && Contains(p, "Desired Positions: " + desiredPositions)
            && Contains(p, "Tech Stack: " + techStack)
  {
    var p := PromptWith(h, i, fullName, years, desiredPositions, techStack);
    LayoutWith(h, i, fullName, years, desiredPositions, techStack);
    var e := |h| + 7 + |fullName|;
    var d := e + 21 + DigitCount(years);
    var t := d + 20 + |desiredPositions|;
    OccursAtPrefix(p, "Name: " + fullName, "\n", |h|);
    OccursAtPrefix(p, "Experience: " + NatToDecimal(years) + " year(s)", "\n", e);
    OccursAtPrefix(p, "Desired Positions: " + desiredPositions, "\n", d);
    Assoc3("Tech Stack: " + techStack, "\n", "\n");
    OccursAtPrefix(p, "Tech Stack: " + techStack, "\n" + "\n", t);
  }

  // ---------------------------------------------------------------------------
  // What every prompt looks like.

  lemma HeaderLength()
    ensures |Header| == 67
  {
  }

  lemma ConstantLengths()
    ensures |Header| == 67 && |Instructions| == 153
    ensures Overhead == |Header| + 7 + 21 + 20 + 14 + |Instructions|
  {
  }

  /** The instructions end with the item "15." after an ellipsis line. */
  lemma InstructionsEnd()
    ensures EndsWith(Instructions, "...\n15.")
  {
    ConstantLengths();
    assert Instructions == Instructions[..146] + "...\n15.";
  }

  /**
   * Whatever the inputs, the prompt opens with the header, closes with the
   * instructions (so with "...\n15."), and is as long as the fixed overhead
   * plus the three strings plus the digits of the years.
   */
  lemma PromptFrame(fullName: string, years: nat, desiredPositions: string, techStack: string)
    ensures var p := GeneratePrompt(fullName, years, desiredPositions, techStack);
            StartsWith(p, Header) && EndsWith(p, Instructions) && EndsWith(p, "...\n15.")
            && |p| == Overhead + |fullName| + |desiredPositions| + |techStack| + DigitCount(years)
  {
    ConstantLengths();
    FrameWith(Header, Instructions, fullName, years, desiredPositions, techStack);
    InstructionsEnd();
    EndsWithTrans(GeneratePrompt(fullName, years, desiredPositions, techStack), Instructions, "...\n15.");
  }

  /**
   * The labelled lines follow the header as contiguous pieces, in the order
   * name, experience, desired positions, tech stack, and the instructions
   * follow them; each offset depends only on the lengths of what precedes it.
   */
  lemma PromptLayout(fullName: string, years: nat, desiredPositions: string, techStack: string)
    ensures var p := GeneratePrompt(fullName, years, desiredPositions, techStack);
            OccursAt(p, NameLine(fullName), 67)
            && OccursAt(p, ExperienceLine(years), 74 + |fullName|)
            && OccursAt(p, PositionsLine(desiredPositions), 95 + |fullName| + DigitCount(years))
            && OccursAt(p, TechStackLine(techStack), 115 + |fullName| + DigitCount(years) + |desiredPositions|)
  {
    HeaderLength();
    LayoutWith(Header, Instructions, fullName, years, desiredPositions, techStack);
  }

  /** Each field appears in the prompt behind its label. */
  lemma PromptMentionsFields(fullName: string, years: nat, desiredPositions: string, techStack: string)
    ensures var p := GeneratePrompt(fullName, years, desiredPositions, techStack);
            Contains(p, "Name: " + fullName)
            && Contains(p, "Experience: " + NatToDecimal(years) + " year(s)")
            && Contains(p, "Desired Positions: " + desiredPositions)
            && Contains(p, "Tech Stack: " + techStack)
  {
    MentionsWith(Header, Instructions, fullName, years, desiredPositions, techStack);
  }

  /** The worked example: three years of experience are rendered as "3 year(s)". */
  lemma JaneDoePrompt()
    ensures Contains(GeneratePrompt("Jane Doe", 3, "ML Engineer", "Python, PyTorch"), "Experience: 3 year(s)")
  {
    PromptMentionsFields("Jane Doe", 3, "ML Engineer", "Python, PyTorch");
    assert "Experience: " + NatToDecimal(3) + " year(s)" == "Experience: 3 year(s)" by {
      assert NatToDecimal(3) == "3";
    }
  }

  // ---------------------------------------------------------------------------
  // Reading a prompt back: the partner of GeneratePrompt.

  /** The rest of `s` after `prefix`, if `s` starts with it. */
  function StripPrefix(s: string, prefix: string): (r: Option<string>)
    ensures r.Some? <==> StartsWith(s, prefix)
    ensures r.Some? ==> s == prefix + r.value
  {
    if StartsWith(s, prefix) then Some(s[|prefix|..]) else None
  }

  /** The front of `s` before `suffix`, if `s` ends with it. */
  function StripSuffix(s: string, suffix: string): (r: Option<string>)
    ensures r.Some? <==> EndsWith(s, suffix)
    ensures r.Some? ==> s == r.value + suffix
  {
    if EndsWith(s, suffix) then Some(s[..|s| - |suffix|]) else None
  }

  /** `s` cut at its first newline into the text before it and the text after it. */
  function SplitLine(s: string): (r: Option<(string, string)>)
    ensures r.None? <==> '\n' !in s
    ensures r.Some? ==> '\n' !in r.value.0 && s == r.value.0 + "\n" + r.value.1
  {
    if s == [] then None
    else if s[0] == '\n' then Some(([], s[1..]))
    else match SplitLine(s[1..])
      case None => None
      case Some(cut) => Some(([s[0]] + cut.0, cut.1))
  }

  /** A line `key + value + "\n"` at the front of `s`: the value and what follows the line. */
  function ParseLine(key: string, s: string): Option<(string, string)>
  {
    var r :- StripPrefix(s, key);
    SplitLine(r)
  }

  /** The years from the text of an experience line, which must be a canonical numeral and " year(s)". */
  function ParseYears(e: string): (r: Option<nat>)
    ensures r.Some? ==> e == NatToDecimal(r.value) + " year(s)"
  {
    if EndsWith(e, " year(s)") && IsCanonical(e[..|e| - 8]) then
      DecimalOfDigitsValue(e[..|e| - 8]);
      assert e == e[..|e| - 8] + " year(s)";
      Some(DigitsValue(e[..|e| - 8]))
    else None
  }

  /** ParsePrompt with the two fixed texts as parameters. */
  function ParsePromptWith(header: string, instructions: string, p: string): Option<Fields>
  {
    var afterHeader :- StripPrefix(p, header);
    var name :- ParseLine("Name: ", afterHeader);
    var experience :- ParseLine("Experience: ", name.1);
    var years :- ParseYears(experience.0);
    var positions :- ParseLine("Desired Positions: ", experience.1);
    var afterLabel :- StripPrefix(positions.1, "Tech Stack: ");
    var stack :- StripSuffix(afterLabel, "\n" + "\n" + instructions);
    Some(Fields(name.0, years, positions.0, stack))
  }

  /**
   * Recovers the fields of a prompt whose name and desired positions hold no
   * newline. The tech stack is the last field, so it is everything between
   * its label and the blank line before the instructions, newlines included.
   */
  function ParsePrompt(p: string): Option<Fields>
  {
    ParsePromptWith(Header, Instructions, p)
  }

  lemma StripPrefixOf(prefix: string, rest: string)
    ensures StripPrefix(prefix + rest, prefix) == Some(rest)
  {
    assert (prefix + rest)[..|prefix|] == prefix;
  }

  lemma StripSuffixOf(front: string, suffix: string)
    ensures StripSuffix(front + suffix, suffix) == Some(front)
  {
    assert (front + suffix)[..|front|] == front;
    assert (front + suffix)[|front|..] == suffix;
  }

  lemma {:induction false} SplitLineOf(a: string, b: string)
    requires '\n' !in a
    ensures SplitLine(a + "\n" + b) == Some((a, b))
  {
    var s := a + "\n" + b;
    if a == [] {
      assert s == ['\n'] + b;
      assert s[1..] == b;
    } else {
      assert s[0] == a[0];
      assert s[1..] == a[1..] + "\n" + b;
      SplitLineOf(a[1..], b);
      assert [a[0]] + a[1..] == a;
    }
  }

  lemma ParseLineOf(key: string, value: string, rest: string)
    requires '\n' !in value
    ensures ParseLine(key, key + value + "\n" + rest) == Some((value, rest))
  {
    assert key + value + "\n" + rest == key + (value + "\n" + rest);
    StripPrefixOf(key, value + "\n" + rest);
    SplitLineOf(value, rest);
  }

  lemma ParseLineSound(key: string, s: string)
    requires ParseLine(key, s).Some?
    ensures var line := ParseLine(key, s).value;
            '\n' !in line.0 && s == key + line.0 + "\n" + line.1
  {
    var r := StripPrefix(s, key).value;
    var line := SplitLine(r).value;
    assert s == key + (line.0 + "\n" + line.1);
  }

  lemma ParseYearsOf(years: nat)
    ensures ParseYears(NatToDecimal(years) + " year(s)") == Some(years)
  {
    var d := NatToDecimal(years);
    var e := d + " year(s)";
    assert e[|e| - 8..] == " year(s)";
    assert e[..|e| - 8] == d;
    DigitsValueOfDecimal(years);
  }

  lemma NoNewlineInExperience(years: nat)
    ensures '\n' !in NatToDecimal(years) + " year(s)"
  {
    assert '\n' !in " year(s)";
  }

  lemma ParseGenerateWith(h: string, i: string, fullName: string, years: nat, desiredPositions: string,
                          techStack: string)
    requires '\n' !in fullName && '\n' !in desiredPositions
    ensures ParsePromptWith(h, i, PromptWith(h, i, fullName, years, desiredPositions, techStack))
         == Some(Fields(fullName, years, desiredPositions, techStack))
  {
    var d := NatToDecimal(years);
    var r3 := TechStackLine(techStack) + i;
    var r2 := PositionsLine(desiredPositions) + r3;
    var r1 := ExperienceLine(years) + r2;
    var r0 := NameLine(fullName) + r1;
    Assoc6(h, NameLine(fullName), ExperienceLine(years), PositionsLine(desiredPositions),
           TechStackLine(techStack), i);
    StripPrefixOf(h, r0);
    ParseLineOf("Name: ", fullName, r1);
    Assoc3("Experience: ", d, " year(s)");
    NoNewlineInExperience(years);
    ParseLineOf("Experience: ", d + " year(s)", r2);
    ParseYearsOf(years);
    ParseLineOf("Desired Positions: ", desiredPositions, r3);
    Assoc5("Tech Stack: ", techStack, "\n", "\n", i);
    StripPrefixOf("Tech Stack: ", techStack + ("\n" + "\n" + i));
    StripSuffixOf(techStack, "\n" + "\n" + i);
  }

  lemma GenerateParseWith(h: string, i: string, p: string)
    ensures ParsePromptWith(h, i, p).Some? ==>
            var f := ParsePromptWith(h, i, p).value;
            '\n' !in f.fullName && '\n' !in f.desiredPositions
            && PromptWith(h, i, f.fullName, f.years, f.desiredPositions, f.techStack) == p
  {
    if ParsePromptWith(h, i, p).None? {
      return;
    }
    var f := ParsePromptWith(h, i, p).value;
    var r0 := StripPrefix(p, h).value;
    var name := ParseLine("Name: ", r0).value;
    var experience := ParseLine("Experience: ", name.1).value;
    var positions := ParseLine("Desired Positions: ", experience.1).value;
    var afterLabel := StripPrefix(positions.1, "Tech Stack: ").value;
    ParseLineSound("Name: ", r0);
    ParseLineSound("Experience: ", name.1);
    ParseLineSound("Desired Positions: ", experience.1);
    assert afterLabel == f.techStack + ("\n" + "\n" + i);
    Assoc3("Experience: ", NatToDecimal(f.years), " year(s)");
    Assoc5("Tech Stack: ", f.techStack, "\n", "\n", i);
    Assoc6(h, NameLine(f.fullName), ExperienceLine(f.years), PositionsLine(f.desiredPositions),
           TechStackLine(f.techStack), i);
  }

  /** Reading back a prompt whose name and positions hold no newline gives exactly its fields. */
  lemma ParseGenerate(fullName: string, years: nat, desiredPositions: string, techStack: string)
    requires '\n' !in fullName && '\n' !in desiredPositions
    ensures ParsePrompt(GeneratePrompt(fullName, years, desiredPositions, techStack))
         == Some(Fields(fullName, years, desiredPositions, techStack))
  {
    ParseGenerateWith(Header, Instructions, fullName, years, desiredPositions, techStack);
  }

  /** Whatever ParsePrompt accepts is the prompt of the fields it returns, whose name and positions hold no newline. */
  lemma GenerateParse(p: string)
    ensures ParsePrompt(p).Some? ==>
            var f := ParsePrompt(p).value;
            '\n' !in f.fullName && '\n' !in f.desiredPositions
            && GeneratePrompt(f.fullName, f.years, f.desiredPositions, f.techStack) == p
  {
    GenerateParseWith(Header, Instructions, p);
  }

  /**
   * Without the newline restriction the prompt does not determine the
   * fields: a name or a desired position holding a newline and a label can
   * mimic the following lines, so two different profiles give one prompt.
   */
  lemma NewlinesMakePromptAmbiguous(x: string, d: string, e: string, t: string, y1: nat, y2: nat)
    ensures var name2 := x + "\n" + ExperienceLine(y1) + "Desired Positions: " + d;
            name2 != x
            && GeneratePrompt(x, y1, d + "\n" + ExperienceLine(y2) + "Desired Positions: " + e, t)
               == GeneratePrompt(name2, y2, e, t)
  {
    var name2 := x + "\n" + ExperienceLine(y1) + "Desired Positions: " + d;
    assert |name2| > |x|;
    var e1, e2 := ExperienceLine(y1), ExperienceLine(y2);
    var d1 := d + "\n" + e2 + "Desired Positions: " + e;
    assert NameLine(x) + e1 + PositionsLine(d1) == NameLine(name2) + e2 + PositionsLine(e) by {
      ChainAssoc("Name: ", x, "\n", e1, "Desired Positions: ", d, e2, e);
    }
    Regroup(Header, NameLine(x), e1, PositionsLine(d1), TechStackLine(t), Instructions);
    Regroup(Header, NameLine(name2), e2, PositionsLine(e), TechStackLine(t), Instructions);
  }
}
