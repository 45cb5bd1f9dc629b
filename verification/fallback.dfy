/** The local poem that stands in for a model answer (app.py,
    `local_poem_fallback`). `html.unescape` is a library function that is
    not part of this model: it is the parameter `unescape`, and every
    property below holds whatever it does. */
module Fallback {
  import opened Strings

  /** The topic used when nothing is left of the prompt. */
  const DefaultTopic := "this topic"

  /** The filler phrases deleted from the prompt, in the order they are deleted. */
  const Fillers: seq<string> := ["pipeline of", "Explain", "explain"]

  /** The five template lines that follow the topic line. */
  const TemplateTail: seq<string> := [
    "A generator dreams, a critic critiques;",
    "Adversarial rhythm tunes model feats,",
    "Yet metrics warn where shortcuts meet.",
    "Practical: validate with held-out sets,",
    "Audit samples, and record your bets."
  ]

  /** A prompt with at most this many white-space separated tokens gets the short poem. */
  const ShortPromptTokens := 3

  /** The number of lines of the short poem. */
  const ShortPoemLines := 4

  /** The prompt unescaped, then stripped. */
  function Sanitized(unescape: string -> string, prompt: string): string {
    Strip(unescape(prompt))
  }

  /** The topic phrase: the three fillers deleted one after the other, each
      in a single left-to-right pass, the result stripped, and "this topic"
      when nothing is left. Inner white space is kept as it is. */
  function Topic(p: string): (topic: string)
    ensures topic != ""
    ensures IsStripped(topic)
  {
    var removed := Strip(ReplaceAll(ReplaceAll(ReplaceAll(p, Fillers[0], ""), Fillers[1], ""), Fillers[2], ""));
    if removed == "" then DefaultTopic else removed
  }

  /** The first line of the poem. */
  function TopicLine(topic: string): string {
    "In careful lines I study " + topic + ","
  }

  /** The lines of the fallback poem, before they are joined. */
  function PoemLines(unescape: string -> string, prompt: string): seq<string> {
    var p := Sanitized(unescape, prompt);
    var lines := [TopicLine(Topic(p))] + TemplateTail;
    if |Split(p)| <= ShortPromptTokens then lines[..ShortPoemLines] else lines
  }

  /** `local_poem_fallback`: the poem lines joined by newlines; the poem
      opens with its topic line. */
  function LocalPoemFallback(unescape: string -> string, prompt: string): (poem: string)
    ensures TopicLine(Topic(Sanitized(unescape, prompt))) <= poem
  {
    JoinEnds(PoemLines(unescape, prompt), "\n");
    Join(PoemLines(unescape, prompt), "\n")
  }

  /** The list of poem lines has four entries exactly when the unescaped,
      stripped prompt has at most three tokens (none at all included), and
      six otherwise; it opens with the topic line and goes on with the fixed
      template. The joined poem can span more lines than the list has
      entries, because the topic keeps any line break of the prompt. */
  lemma PoemShape(unescape: string -> string, prompt: string)
    ensures var lines := PoemLines(unescape, prompt);
            && (|lines| == 4 <==> |Split(Sanitized(unescape, prompt))| <= 3)
            && (|lines| == 4 || |lines| == 6)
            && lines[0] == TopicLine(Topic(Sanitized(unescape, prompt)))
            && lines[1..] == TemplateTail[..|lines| - 1]
  {
    var p := Sanitized(unescape, prompt);
    var lines := [TopicLine(Topic(p))] + TemplateTail;
    assert lines[..ShortPoemLines][1..] == TemplateTail[..3];
    assert lines[1..] == TemplateTail;
  }

  /** A blank prompt (empty, or white space only) has no tokens, so it gets
      the four-line poem about "this topic". */
  lemma BlankPromptPoem(unescape: string -> string, prompt: string)
    requires AllSpace(unescape(prompt))
    ensures PoemLines(unescape, prompt) == [TopicLine(DefaultTopic)] + TemplateTail[..3]
  {
    var p := Sanitized(unescape, prompt);
    StripEmptyIff(unescape(prompt));
    assert p == "";
    assert ReplaceAll(ReplaceAll(ReplaceAll(p, Fillers[0], ""), Fillers[1], ""), Fillers[2], "") == "";
  }

  /** The fallback is never empty: it is the one answer that is always there. */
  lemma FallbackNonEmpty(unescape: string -> string, prompt: string)
    ensures LocalPoemFallback(unescape, prompt) != ""
  {
    var first := TopicLine(Topic(Sanitized(unescape, prompt)));
    assert first <= LocalPoemFallback(unescape, prompt);
    assert |first| > 0;
  }

  /** A prompt that holds none of the fillers keeps all of its text in the
      topic, trimmed. */
  lemma TopicWithoutFillers(p: string)
    requires !Contains(p, Fillers[0]) && !Contains(p, Fillers[1]) && !Contains(p, Fillers[2])
    requires Strip(p) != ""
    ensures Topic(p) == Strip(p)
  {
    RemoveUnchangedIff(p, Fillers[0]);
    RemoveUnchangedIff(p, Fillers[1]);
    RemoveUnchangedIff(p, Fillers[2]);
  }

  /** The deletions do not close up the gap they leave: in
      "Explain the pipeline of a GAN" the topic keeps two spaces. */
  lemma GanTopic(prompt: string)
    requires prompt == "Explain the pipeline of a GAN"
    ensures Topic(prompt) == "the  a GAN"
  {
    var s1 := ReplaceAll(prompt, Fillers[0], "");
    GanDropPipeline(prompt);
    var s2 := ReplaceAll(s1, Fillers[1], "");
    GanDropExplain(s1);
    GanKeepRest(s2);
  }

  /** The same prompt, given to the fallback unchanged by `unescape`. */
  lemma GanSanitized(prompt: string, unescape: string -> string)
    requires prompt == "Explain the pipeline of a GAN" && unescape(prompt) == prompt
    ensures TopicLine("the  a GAN") <= LocalPoemFallback(unescape, prompt)
  {
    assert !IsSpace(prompt[0]) && !IsSpace(prompt[|prompt| - 1]);
    StripStripped(prompt);
    GanTopic(prompt);
  }

  lemma GanDropPipeline(s: string)
    requires s == "Explain the pipeline of a GAN"
    ensures ReplaceAll(s, Fillers[0], "") == "Explain the  a GAN"
  {
    var a, pat, c := "Explain the ", "pipeline of", " a GAN";
    GanPieces(s, a, pat, c);
    GanPipelineOnce(a, pat, c);
  }

  lemma GanPieces(s: string, a: string, pat: string, c: string)
    requires s == "Explain the pipeline of a GAN"
    requires a == "Explain the " && pat == "pipeline of" && c == " a GAN"
    ensures s == a + pat + c && pat == Fillers[0] && a + c == "Explain the  a GAN"
  {
  }

  lemma GanPipelineOnce(a: string, pat: string, c: string)
    requires a == "Explain the " && pat == "pipeline of" && c == " a GAN"
    ensures ReplaceAll(a + pat + c, pat, "") == a + c
  {
    GanNoEarlyPipeline(a, pat, c);
    NoMatchNotContains(c, pat);
    RemoveOnly(a, pat, c);
  }

  lemma GanNoEarlyPipeline(a: string, pat: string, c: string)
    requires a == "Explain the " && pat == "pipeline of" && c == " a GAN"
    ensures forall i :: 0 <= i < |a| ==> !(pat <= (a + (pat + c))[i..])
  {
    forall i | 0 <= i < |a| ensures !(pat <= (a + (pat + c))[i..]) {
      if i == 2 {
        assert (a + (pat + c))[i..][1] != pat[1];
      } else {
        assert (a + (pat + c))[i..][0] != pat[0];
      }
    }
  }

  lemma GanDropExplain(s: string)
    requires s == "Explain the  a GAN"
    ensures ReplaceAll(s, Fillers[1], "") == " the  a GAN"
  {
    var c := s[7..];
    assert [] + Fillers[1] + c == s;
    forall i | 0 <= i < |c| ensures !(Fillers[1] <= c[i..]) {
      assert c[i] != Fillers[1][0];
    }
    NoMatchNotContains(c, Fillers[1]);
    RemoveOnly([], Fillers[1], c);
  }

  lemma GanKeepRest(s: string)
    requires s == " the  a GAN"
    ensures ReplaceAll(s, Fillers[2], "") == s
    ensures Strip(s) == "the  a GAN"
  {
    forall i | 0 <= i < |s| ensures !(Fillers[2] <= s[i..]) {
      if i == 3 {
        assert s[i + 1] != Fillers[2][1];
      } else {
        assert s[i] != Fillers[2][0];
      }
    }
    NoMatchNotContains(s, Fillers[2]);
    RemoveUnchangedIff(s, Fillers[2]);
    GanStrip(s, s[1..]);
  }

  lemma GanStrip(s: string, t: string)
    requires s == " the  a GAN" && t == s[1..]
    ensures Strip(s) == "the  a GAN"
  {
    assert IsSpace(s[0]) && !IsSpace(s[1]);
    assert LeadingSpaces(s) == 1;
    assert !IsSpace(t[|t| - 1]);
    assert TrailingSpaces(t) == 0;
  }

  /** One pass per filler does not catch a filler that a deletion forms: the
      prompt "ExpExplainlain" leaves the topic "Explain". */
  lemma FillerFormedByDeletion(prompt: string)
    requires prompt == "ExpExplainlain"
    ensures Topic(prompt) == "Explain"
  {
    FormedKeepPipeline(prompt);
    FormedDropExplain(prompt);
    var s2 := ReplaceAll(prompt, Fillers[1], "");
    FormedKeepExplain(s2);
    StripStripped(s2);
  }

  lemma FormedKeepPipeline(s: string)
    requires s == "ExpExplainlain"
    ensures ReplaceAll(s, Fillers[0], "") == s
  {
    forall i | 0 <= i < |s| ensures !(Fillers[0] <= s[i..]) {
      if i == 2 {
        assert s[i + 1] != Fillers[0][1];
      } else if i < 4 {
        assert s[i] != Fillers[0][0];
      }
    }
    NoMatchNotContains(s, Fillers[0]);
    RemoveUnchangedIff(s, Fillers[0]);
  }

  lemma FormedDropExplain(s: string)
    requires s == "ExpExplainlain"
    ensures ReplaceAll(s, Fillers[1], "") == "Explain"
  {
    var a, pat, c := "Exp", "Explain", "lain";
    FormedPieces(s, a, pat, c);
    forall i | 0 <= i < |a| ensures !(pat <= (a + (pat + c))[i..]) {
      if i == 0 {
        assert s[3] != pat[3];
      } else {
        assert s[i] != pat[0];
      }
    }
    forall i | 0 <= i < |c| ensures !(pat <= c[i..]) {
      assert c[i] != pat[0];
    }
    NoMatchNotContains(c, pat);
    RemoveOnly(a, pat, c);
  }

  lemma FormedPieces(s: string, a: string, pat: string, c: string)
    requires s == "ExpExplainlain"
    requires a == "Exp" && pat == "Explain" && c == "lain"
    ensures s == a + pat + c && s == a + (pat + c) && pat == Fillers[1] && a + c == "Explain"
  {
  }

  lemma FormedKeepExplain(s: string)
    requires s == "Explain"
    ensures ReplaceAll(s, Fillers[2], "") == s
    ensures IsStripped(s)
  {
    forall i | 0 <= i < |s| ensures !(Fillers[2] <= s[i..]) {
      assert s[i] != Fillers[2][0];
    }
    NoMatchNotContains(s, Fillers[2]);
    RemoveUnchangedIff(s, Fillers[2]);
  }
}
