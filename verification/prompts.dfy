/**
 * The prompt catalog and the prompt builder of Smart Study Buddy
 * (src/prompts.py): the audience, tone and length catalogs, and the
 * construction of the user prompt from a topic, an audience and an
 * optional tone and length.
 */
module Prompts {
  import opened Wrappers

  /** The tutor's system prompt; its text is not part of this model. */
  const SystemPrompt: string

  /** Audience shorthand keys and the labels they stand for. */
  const AudienceLevels: map<string, string> := map[
    "child" := "5-year-old child",
    "elementary" := "elementary school student (ages 6-10)",
    "middle_school" := "middle school student (ages 11-14)",
    "high_school" := "high school student (ages 15-18)",
    "beginner" := "beginner adult with no prior knowledge",
    "intermediate" := "intermediate learner with basic knowledge",
    "advanced" := "advanced learner with substantial background",
    "expert" := "expert in the field"
  ]

  /** The predefined tones. */
  const Tones: seq<string> := ["playful", "neutral", "academic", "professional"]

  /** The predefined lengths. */
  const Lengths: seq<string> := ["short", "medium", "detailed"]

  /** The catalogs have the advertised sizes, and their entries are distinct. */
  lemma CatalogSizes()
    ensures |AudienceLevels| == 8
    ensures "child" in AudienceLevels && "expert" in AudienceLevels
    ensures |Tones| == 4 && |Lengths| == 3
    ensures forall i, j :: 0 <= i < j < |Tones| ==> Tones[i] != Tones[j]
    ensures forall i, j :: 0 <= i < j < |Lengths| ==> Lengths[i] != Lengths[j]
  {
  }

  /** Python's `sep.join(parts)`: the parts with `sep` between neighbours. */
  function Join(parts: seq<string>, sep: string): (r: string)
  {
    if |parts| == 0 then ""
    else if |parts| == 1 then parts[0]
    else parts[0] + sep + Join(parts[1..], sep)
  }

  /** `text.endswith(suffix)`. */
  predicate EndsWith(text: string, suffix: string)
  {
    |suffix| <= |text| && text[|text| - |suffix|..] == suffix
  }

  /** Appending one more part adds the separator and that part at the end. */
  lemma {:induction false} JoinSnoc(parts: seq<string>, sep: string, last: string)
    requires |parts| > 0
    ensures Join(parts + [last], sep) == Join(parts, sep) + sep + last
  {
    if |parts| == 1 {
      assert (parts + [last])[1..] == [last];
    } else {
      assert (parts + [last])[1..] == parts[1..] + [last];
      JoinSnoc(parts[1..], sep, last);
    }
  }

  /** A join starts with its first part and ends with its last one. */
  lemma {:induction false} JoinEnds(parts: seq<string>, sep: string)
    requires |parts| > 0
    ensures parts[0] <= Join(parts, sep)
    ensures EndsWith(Join(parts, sep), parts[|parts| - 1])
  {
    if |parts| > 1 {
      var rest := Join(parts[1..], sep);
      JoinEnds(parts[1..], sep);
      assert parts[1..][|parts| - 2] == parts[|parts| - 1];
      var w := parts[0] + sep + rest;
      assert w[|w| - |rest|..] == rest;
      assert w[..|parts[0]|] == parts[0];
    }
  }

  /**
   * The list of lines the source assembles: topic and audience first, a
   * tone line and a length line only when given, and the instruction last
   * (preceded by a newline of its own, which leaves a blank line).
   */
  function PromptParts(topic: string, audience: string,
                       tone: Option<string>, length: Option<string>): (parts: seq<string>)
    ensures |parts| == 3 + (if Given(tone) then 1 else 0) + (if Given(length) then 1 else 0)
    ensures parts[0] == "Topic: " + topic
    ensures parts[1] == "Audience: " + audience
    ensures Given(tone) ==> parts[2] == "Tone: " + tone.value
    ensures Given(length) ==> parts[|parts| - 2] == "Length: " + length.value
    ensures parts[|parts| - 1] == InstructionPart
  {
    var base := ["Topic: " + topic, "Audience: " + audience];
    var withTone := AppendIf(base, "Tone: ", tone);
    var withLength := AppendIf(withTone, "Length: ", length);
    withLength + [InstructionPart]
  }

  /** `if field: parts.append(name + field)`. */
  function AppendIf(parts: seq<string>, name: string, field: Option<string>): (r: seq<string>)
    ensures parts <= r
    ensures |r| == |parts| + (if Given(field) then 1 else 0)
    ensures Given(field) ==> r[|parts|] == name + field.value
  {
    if Given(field) then parts + [name + field.value] else parts
  }

  /** `create_user_prompt`: the parts joined by newlines. */
  function CreateUserPrompt(topic: string, audience: string,
                            tone: Option<string>, length: Option<string>): (r: string)
    ensures "Topic: " + topic <= r
    ensures EndsWith(r, InstructionPart)
  {
    var parts := PromptParts(topic, audience, tone, length);
    JoinEnds(parts, "\n");
    Join(parts, "\n")
  }

  /** The text an optional field contributes: a newline and its line, or nothing. */
  function OptionalLine(name: string, field: Option<string>): string
  {
    if Given(field) then "\n" + name + field.value else ""
  }

  /** The header every prompt starts with. */
  function Header(topic: string, audience: string): string
  {
    "Topic: " + topic + "\nAudience: " + audience
  }

  /** The fixed instruction that closes every user prompt. */
  const Instruction := "Please explain this topic according to the guidelines above."

  /** The last part of every prompt: the instruction on a line after a blank one. */
  const InstructionPart := "\n" + Instruction

  /** The text every prompt ends with: the newline that joins the last part, and that part. */
  const Trailer := "\n" + InstructionPart

  /** Joining the two header lines gives the header. */
  lemma JoinHeader(topic: string, audience: string)
    ensures Join(["Topic: " + topic, "Audience: " + audience], "\n") == Header(topic, audience)
  {
  }

  /** Appending an optional field's line adds exactly its `OptionalLine` text. */
  lemma {:induction false} JoinOptional(parts: seq<string>, name: string, field: Option<string>)
    requires |parts| > 0
    ensures Join(AppendIf(parts, name, field), "\n") == Join(parts, "\n") + OptionalLine(name, field)
  {
    if Given(field) {
      JoinSnoc(parts, "\n", name + field.value);
    }
  }

  /**
   * The whole prompt as one concatenation: header, the optional tone and
   * length lines, trailer. An absent field contributes nothing at all.
   */
  lemma PromptLayout(topic: string, audience: string, tone: Option<string>, length: Option<string>)
    ensures CreateUserPrompt(topic, audience, tone, length)
         == Header(topic, audience) + OptionalLine("Tone: ", tone)
            + OptionalLine("Length: ", length) + Trailer
  {
    var base := ["Topic: " + topic, "Audience: " + audience];
    var withTone := AppendIf(base, "Tone: ", tone);
    var withLength := AppendIf(withTone, "Length: ", length);
    JoinHeader(topic, audience);
    JoinOptional(base, "Tone: ", tone);
    JoinOptional(withTone, "Length: ", length);
    JoinSnoc(withLength, "\n", InstructionPart);
  }

  /** `part` occurs somewhere in `text` (Python's `part in text`). */
  predicate Contains(text: string, part: string)
  {
    exists i :: 0 <= i <= |text| - |part| && part <= text[i..]
  }

  /** Whatever stands between a prefix and a suffix occurs in the whole. */
  lemma ContainsMiddle(before: string, part: string, after: string)
    ensures Contains(before + part + after, part)
  {
    assert (before + part + after)[|before|..] == part + after;
  }

  /** The first of four concatenated pieces is a prefix of the whole. */
  lemma FirstIsPrefix(a: string, b: string, c: string, d: string)
    ensures a <= a + b + c + d
  {
  }

  /** The last of four concatenated pieces is a suffix of the whole. */
  lemma LastIsSuffix(a: string, b: string, c: string, d: string)
    ensures var w := a + b + c + d; |d| <= |w| && w[|w| - |d|..] == d
  {
  }

  /** Every prompt starts with the topic line and the audience line. */
  lemma PromptStartsWithHeader(topic: string, audience: string,
                               tone: Option<string>, length: Option<string>)
    ensures "Topic: " + topic + "\nAudience: " + audience <= CreateUserPrompt(topic, audience, tone, length)
  {
    PromptLayout(topic, audience, tone, length);
    FirstIsPrefix(Header(topic, audience), OptionalLine("Tone: ", tone), OptionalLine("Length: ", length), Trailer);
  }

  /** Every prompt ends with a blank line and the fixed instruction. */
  lemma PromptEndsWithInstruction(topic: string, audience: string,
                                  tone: Option<string>, length: Option<string>)
    ensures var r := CreateUserPrompt(topic, audience, tone, length);
      |Trailer| <= |r| && r[|r| - |Trailer|..] == Trailer
  {
    PromptLayout(topic, audience, tone, length);
    LastIsSuffix(Header(topic, audience), OptionalLine("Tone: ", tone), OptionalLine("Length: ", length), Trailer);
  }

  /**
   * Concatenation regrouped to the right. This and the three other
   * four-piece concatenation lemmas carry no insight of their own; calling
   * them keeps the prompt proofs below from depending on how the solver
   * happens to regroup long concatenations.
   */
  lemma Regroup(a: string, b: string, c: string, d: string)
    ensures a + b + c + d == a + (b + c + d)
  {
  }

  /** Concatenation with the last two pieces grouped. */
  lemma RegroupTail(a: string, b: string, c: string, d: string)
    ensures a + b + c + d == a + b + (c + d)
  {
  }

  /** The topic and the audience occur in any text that starts with the header. */
  lemma HeaderMentions(topic: string, audience: string, tail: string)
    ensures var r := Header(topic, audience) + tail;
      Contains(r, topic) && Contains(r, "\nAudience: " + audience) && Contains(r, audience)
  {
    var r := Header(topic, audience) + tail;
    assert r[7..] == topic + "\nAudience: " + audience + tail;
    var k := |"Topic: " + topic|;
    assert r[k..] == "\nAudience: " + audience + tail;
    assert r[k + 11..] == audience + tail;
  }

  /** The topic and the audience occur in the prompt. */
  lemma PromptMentionsHeader(topic: string, audience: string,
                             tone: Option<string>, length: Option<string>)
    ensures var r := CreateUserPrompt(topic, audience, tone, length);
      Contains(r, topic) && Contains(r, "\nAudience: " + audience) && Contains(r, audience)
  {
    PromptLayout(topic, audience, tone, length);
    var toneLine, lengthLine := OptionalLine("Tone: ", tone), OptionalLine("Length: ", length);
    Regroup(Header(topic, audience), toneLine, lengthLine, Trailer);
    HeaderMentions(topic, audience, toneLine + lengthLine + Trailer);
  }

  /** A labelled line and its value occur in any text that contains the line. */
  lemma LineMentions(text: string, before: string, name: string, value: string, after: string)
    requires text == before + ("\n" + name + value) + after
    ensures Contains(text, name + value) && Contains(text, value)
  {
    assert text == (before + "\n") + (name + value) + after;
    ContainsMiddle(before + "\n", name + value, after);
    assert text == (before + "\n" + name) + value + after;
    ContainsMiddle(before + "\n" + name, value, after);
  }

  /** A given tone occurs in the prompt, on its own tone line. */
  lemma PromptMentionsTone(topic: string, audience: string,
                           tone: Option<string>, length: Option<string>)
    requires Given(tone)
    ensures var r := CreateUserPrompt(topic, audience, tone, length);
      Contains(r, "Tone: " + tone.value) && Contains(r, tone.value)
  {
    PromptLayout(topic, audience, tone, length);
    var r := CreateUserPrompt(topic, audience, tone, length);
    var head, toneLine := Header(topic, audience), OptionalLine("Tone: ", tone);
    var lengthLine := OptionalLine("Length: ", length);
    assert toneLine == "\n" + "Tone: " + tone.value;
    RegroupTail(head, toneLine, lengthLine, Trailer);
    LineMentions(r, head, "Tone: ", tone.value, lengthLine + Trailer);
  }

  /** A given length occurs in the prompt, on its own length line. */
  lemma PromptMentionsLength(topic: string, audience: string,
                             tone: Option<string>, length: Option<string>)
    requires Given(length)
    ensures var r := CreateUserPrompt(topic, audience, tone, length);
      Contains(r, "Length: " + length.value) && Contains(r, length.value)
  {
    PromptLayout(topic, audience, tone, length);
    var r := CreateUserPrompt(topic, audience, tone, length);
    LineMentions(r, Header(topic, audience) + OptionalLine("Tone: ", tone), "Length: ", length.value, Trailer);
  }

  /**
   * The topic, the audience and every given tone and length occur in the
   * prompt (the assertions of the prompt tests, for all inputs).
   */
  lemma PromptMentionsFields(topic: string, audience: string,
                             tone: Option<string>, length: Option<string>)
    ensures var r := CreateUserPrompt(topic, audience, tone, length);
      && Contains(r, topic) && Contains(r, audience)
      && (Given(tone) ==> Contains(r, tone.value))
      && (Given(length) ==> Contains(r, length.value))
  {
    PromptMentionsHeader(topic, audience, tone, length);
    if Given(tone) {
      PromptMentionsTone(topic, audience, tone, length);
    }
    if Given(length) {
      PromptMentionsLength(topic, audience, tone, length);
    }
  }

  /** A tone line is present exactly when the tone is given. */
  lemma ToneLineIffGiven(topic: string, audience: string, tone: Option<string>, length: Option<string>)
    ensures var parts := PromptParts(topic, audience, tone, length);
      (exists i :: 0 <= i < |parts| && "Tone: " <= parts[i]) <==> Given(tone)
  {
    var parts := PromptParts(topic, audience, tone, length);
    if Given(tone) {
      assert "Tone: " <= parts[2];
    } else {
      forall i | 0 <= i < |parts| ensures !("Tone: " <= parts[i]) {
        if i == 0 {
          assert parts[i][2] == 'p';
        } else if i == 1 {
          assert parts[i][0] == 'A';
        } else if i == |parts| - 1 {
          assert parts[i] == InstructionPart;
          assert parts[i][0] == '\n';
        } else {
          assert parts[i] == "Length: " + length.value;
          assert parts[i][0] == 'L';
        }
      }
    }
  }

  /** A length line is present exactly when the length is given. */
  lemma LengthLineIffGiven(topic: string, audience: string, tone: Option<string>, length: Option<string>)
    ensures var parts := PromptParts(topic, audience, tone, length);
      (exists i :: 0 <= i < |parts| && "Length: " <= parts[i]) <==> Given(length)
  {
    var parts := PromptParts(topic, audience, tone, length);
    if Given(length) {
      assert "Length: " <= parts[|parts| - 2];
    } else {
      forall i | 0 <= i < |parts| ensures !("Length: " <= parts[i]) {
        if i == 0 || i == 1 {
          assert parts[i][1] != 'e';
        } else if i == |parts| - 1 {
          assert parts[i] == InstructionPart;
          assert parts[i][0] == '\n';
        } else {
          assert parts[i] == "Tone: " + tone.value;
          assert parts[i][0] == 'T';
        }
      }
    }
  }

  /**
   * The prompt builder does not resolve audience shorthand: the audience
   * line of a catalog key holds the key itself, not the key's label, and
   * that line occurs in the prompt.
   */
  lemma AudienceKeyVerbatim(topic: string, key: string, tone: Option<string>, length: Option<string>)
    requires key in AudienceLevels
    ensures PromptParts(topic, key, tone, length)[1] == "Audience: " + key
    ensures PromptParts(topic, key, tone, length)[1] != "Audience: " + AudienceLevels[key]
    ensures Contains(CreateUserPrompt(topic, key, tone, length), "\nAudience: " + key)
  {
    PromptMentionsHeader(topic, key, tone, length);
  }
}
