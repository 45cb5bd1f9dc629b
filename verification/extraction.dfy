/** Pulling plain text out of a generation response (app.py,
    `extract_text_from_response`). The response is a nested structure in
    which any level may be missing: a missing attribute and an attribute
    that is `None` (or an empty list) are the same `None` here. */
module Extraction {
  import opened Wrappers
  import opened Strings
  import opened Seqs

  datatype Part = Part(text: Option<string>)

  datatype Content = Content(parts: Option<seq<Part>>)

  datatype Candidate = Candidate(content: Option<Content>, finishReason: Option<int>)

  datatype Response = Response(candidates: Option<seq<Candidate>>)

  /** The candidates of a response; none when the attribute is missing or empty. */
  function CandidatesOf(r: Response): seq<Candidate> {
    r.candidates.GetOr([])
  }

  /** The parts a candidate contributes: none when its content is missing,
      otherwise its parts, none when they are missing. */
  function PartsOf(c: Candidate): seq<Part> {
    match c.content
    case None => []
    case Some(content) => content.parts.GetOr([])
  }

  /** Python's `if txt:` on a part's text. */
  predicate IsTruthy(p: Part) {
    p.text.Some? && p.text.value != ""
  }

  /** The texts `extract_text_from_response` collects from a run of parts, in order. */
  function PartTexts(ps: seq<Part>): seq<string>
    decreases |ps|
  {
    if ps == [] then []
    else
      var last := ps[|ps| - 1];
      PartTexts(ps[..|ps| - 1]) + (if IsTruthy(last) then [last.text.value] else [])
  }

  /** The texts collected from a run of candidates: candidate by candidate,
      and within a candidate part by part. */
  function CandidateTexts(cs: seq<Candidate>): seq<string>
    decreases |cs|
  {
    if cs == [] then []
    else CandidateTexts(cs[..|cs| - 1]) + PartTexts(PartsOf(cs[|cs| - 1]))
  }

  /** `parts_out` once both loops have finished. */
  function CollectedTexts(r: Response): seq<string> {
    CandidateTexts(CandidatesOf(r))
  }

  /** The texts stripped, in order, without those that strip to nothing. */
  function StrippedNonBlank(xs: seq<string>): seq<string>
    decreases |xs|
  {
    if xs == [] then []
    else
      var s := Strip(xs[0]);
      (if s != "" then [s] else []) + StrippedNonBlank(xs[1..])
  }

  /** What `extract_text_from_response` returns: `None` when no text was
      collected, otherwise the stripped non-blank texts joined by newlines. */
  function ExtractedText(r: Response): Option<string> {
    var texts := CollectedTexts(r);
    if texts == [] then None else Some(Join(StrippedNonBlank(texts), "\n"))
  }

  /** The reference definition: some candidate that has content has a part
      whose text is a non-empty string. */
  ghost predicate HasTruthyPart(r: Response) {
    exists i, j :: 0 <= i < |CandidatesOf(r)| && 0 <= j < |PartsOf(CandidatesOf(r)[i])|
                   && IsTruthy(PartsOf(CandidatesOf(r)[i])[j])
  }

  /** The inner loop of `extract_text_from_response`: every truthy part
      text of one candidate is appended to `partsOut`, in order. */
  method AppendPartTexts(partsOut: seq<string>, parts: seq<Part>) returns (out: seq<string>)
    ensures out == partsOut + PartTexts(parts)
  {
    out := partsOut;
    for j := 0 to |parts|
      invariant out == partsOut + PartTexts(parts[..j])
    {
      TakeSnoc(parts, j);
      PartTextsSnoc(parts[..j], parts[j]);
      var txt := parts[j].text;
      if txt.Some? && txt.value != "" {
        out := out + [txt.value];
      }
    }
    assert parts[..|parts|] == parts;
  }

  /** `extract_text_from_response`: the outer loop over the candidates,
      skipping those without content, then the join. */
  method ExtractTextFromResponse(response: Response) returns (text: Option<string>)
    ensures text == ExtractedText(response)
  {
    var partsOut: seq<string> := [];
    var candidates := CandidatesOf(response);
    for i := 0 to |candidates|
      invariant partsOut == CandidateTexts(candidates[..i])
    {
      TakeSnoc(candidates, i);
      CandidateTextsSnoc(candidates[..i], candidates[i]);
      var content := candidates[i].content;
      if content.None? {
        continue;
      }
      partsOut := AppendPartTexts(partsOut, content.value.parts.GetOr([]));
    }
    assert candidates[..|candidates|] == candidates;
    if partsOut != [] {
      text := Some(Join(StrippedNonBlank(partsOut), "\n"));
    } else {
      text := None;
    }
  }

  /** Some part of `ps` carries `t` as a non-empty string. */
  ghost predicate PartsCarry(ps: seq<Part>, t: string) {
    exists j :: 0 <= j < |ps| && IsTruthy(ps[j]) && ps[j].text.value == t
  }

  /** A text is collected from a run of parts exactly when some part carries
      it as a non-empty string. */
  lemma {:induction false} PartTextsMembers(ps: seq<Part>, t: string)
    ensures t in PartTexts(ps) <==> PartsCarry(ps, t)
    decreases |ps|
  {
    if ps != [] {
      var init := ps[..|ps| - 1];
      PartTextsMembers(init, t);
      if PartsCarry(init, t) {
        var j :| 0 <= j < |init| && IsTruthy(init[j]) && init[j].text.value == t;
        assert ps[j] == init[j];
      }
      if PartsCarry(ps, t) {
        var j :| 0 <= j < |ps| && IsTruthy(ps[j]) && ps[j].text.value == t;
        if j < |init| {
          assert init[j] == ps[j];
        }
      }
    }
  }

  /** A text is collected from a run of candidates exactly when some
      candidate with content has a part that carries it. */
  lemma {:induction false} CandidateTextsMembers(cs: seq<Candidate>, t: string)
    ensures t in CandidateTexts(cs) <==> exists i :: 0 <= i < |cs| && PartsCarry(PartsOf(cs[i]), t)
    decreases |cs|
  {
    if cs != [] {
      var init := cs[..|cs| - 1];
      var last := cs[|cs| - 1];
      SplitLast([], cs);
      CandidateTextsSnoc(init, last);
      CandidateTextsMembers(init, t);
      PartTextsMembers(PartsOf(last), t);
      if exists i :: 0 <= i < |init| && PartsCarry(PartsOf(init[i]), t) {
        var i :| 0 <= i < |init| && PartsCarry(PartsOf(init[i]), t);
        assert cs[i] == init[i];
      }
      if exists i :: 0 <= i < |cs| && PartsCarry(PartsOf(cs[i]), t) {
        var i :| 0 <= i < |cs| && PartsCarry(PartsOf(cs[i]), t);
        if i < |init| {
          assert init[i] == cs[i];
        }
      }
    }
  }

  /** The extractor answers `None` exactly when no candidate with content has
      a part with a non-empty text; missing levels contribute nothing. */
  lemma ExtractNoneIff(r: Response)
    ensures ExtractedText(r) == None <==> !HasTruthyPart(r)
  {
    var texts := CollectedTexts(r);
    var cs := CandidatesOf(r);
    if texts != [] {
      CandidateTextsMembers(cs, texts[0]);
      var i :| 0 <= i < |cs| && PartsCarry(PartsOf(cs[i]), texts[0]);
      var j :| 0 <= j < |PartsOf(cs[i])| && IsTruthy(PartsOf(cs[i])[j]) && PartsOf(cs[i])[j].text.value == texts[0];
    } else if HasTruthyPart(r) {
      var i, j :| 0 <= i < |cs| && 0 <= j < |PartsOf(cs[i])| && IsTruthy(PartsOf(cs[i])[j]);
      var t := PartsOf(cs[i])[j].text.value;
      assert PartsCarry(PartsOf(cs[i]), t);
      CandidateTextsMembers(cs, t);
    }
  }

  /** Collecting from the candidates of two responses one after the other
      gives the first response's texts followed by the second's: the
      candidate order is kept. */
  lemma {:induction false} CandidateTextsAppend(cs: seq<Candidate>, ds: seq<Candidate>)
    ensures CandidateTexts(cs + ds) == CandidateTexts(cs) + CandidateTexts(ds)
    decreases |ds|
  {
    if ds == [] {
      assert cs + ds == cs;
    } else {
      var init, last := ds[..|ds| - 1], ds[|ds| - 1];
      SplitLast(cs, ds);
      CandidateTextsAppend(cs, init);
      CandidateTextsSnoc(cs + init, last);
      CandidateTextsSnoc(init, last);
      Assoc(CandidateTexts(cs), CandidateTexts(init), PartTexts(PartsOf(last)));
    }
  }

  lemma CandidateTextsSnoc(cs: seq<Candidate>, c: Candidate)
    ensures CandidateTexts(cs + [c]) == CandidateTexts(cs) + PartTexts(PartsOf(c))
  {
    assert (cs + [c])[..|cs|] == cs;
  }

  /** The part order within a candidate is kept as well. */
  lemma {:induction false} PartTextsAppend(ps: seq<Part>, qs: seq<Part>)
    ensures PartTexts(ps + qs) == PartTexts(ps) + PartTexts(qs)
    decreases |qs|
  {
    if qs == [] {
      assert ps + qs == ps;
    } else {
      var init, last := qs[..|qs| - 1], qs[|qs| - 1];
      SplitLast(ps, qs);
      PartTextsAppend(ps, init);
      PartTextsSnoc(ps + init, last);
      PartTextsSnoc(init, last);
      Assoc(PartTexts(ps), PartTexts(init), if IsTruthy(last) then [last.text.value] else []);
    }
  }

  lemma PartTextsSnoc(ps: seq<Part>, p: Part)
    ensures PartTexts(ps + [p]) == PartTexts(ps) + (if IsTruthy(p) then [p.text.value] else [])
  {
    assert (ps + [p])[..|ps|] == ps;
  }

  /** Every kept text is non-empty and stripped. */
  lemma {:induction false} StrippedNonBlankShape(xs: seq<string>)
    ensures forall k :: 0 <= k < |StrippedNonBlank(xs)| ==>
              StrippedNonBlank(xs)[k] != "" && IsStripped(StrippedNonBlank(xs)[k])
    decreases |xs|
  {
    if xs != [] {
      var s, rest := Strip(xs[0]), StrippedNonBlank(xs[1..]);
      StrippedNonBlankShape(xs[1..]);
      if s != "" {
        var ys := [s] + rest;
        assert StrippedNonBlank(xs) == ys;
        forall k | 0 <= k < |ys| ensures ys[k] != "" && IsStripped(ys[k]) {
          if k > 0 {
            assert ys[k] == rest[k - 1];
          }
        }
      } else {
        assert StrippedNonBlank(xs) == rest;
      }
    }
  }

  /** `StrippedNonBlank` is empty exactly when every text is blank. */
  lemma {:induction false} StrippedNonBlankEmptyIff(xs: seq<string>)
    ensures StrippedNonBlank(xs) == [] <==> forall k :: 0 <= k < |xs| ==> AllSpace(xs[k])
    decreases |xs|
  {
    if xs != [] {
      StrippedNonBlankEmptyIff(xs[1..]);
      StripEmptyIff(xs[0]);
      assert forall k :: 1 <= k < |xs| ==> xs[k] == xs[1..][k - 1];
    }
  }

  /** When texts were found but all of them are white space, the extractor
      answers the empty string, not `None`. */
  lemma ExtractAllBlank(r: Response)
    requires HasTruthyPart(r)
    requires forall t :: t in CollectedTexts(r) ==> AllSpace(t)
    ensures ExtractedText(r) == Some("")
  {
    ExtractNoneIff(r);
    StrippedNonBlankEmptyIff(CollectedTexts(r));
  }

  /** The extracted text is empty exactly when every collected text is blank. */
  lemma ExtractEmptyIff(r: Response)
    requires ExtractedText(r).Some?
    ensures ExtractedText(r).value == "" <==> forall t :: t in CollectedTexts(r) ==> AllSpace(t)
  {
    var ys := StrippedNonBlank(CollectedTexts(r));
    StrippedNonBlankEmptyIff(CollectedTexts(r));
    if ys != [] {
      JoinEnds(ys, "\n");
      StrippedNonBlankShape(CollectedTexts(r));
    }
  }

  /** The extracted text has no white space at either end, so the caller's
      `text.strip()` returns it unchanged. */
  lemma ExtractedIsStripped(r: Response)
    requires ExtractedText(r).Some?
    ensures Strip(ExtractedText(r).value) == ExtractedText(r).value
  {
    StrippedNonBlankShape(CollectedTexts(r));
    JoinStripped(StrippedNonBlank(CollectedTexts(r)), "\n");
    StripStripped(ExtractedText(r).value);
  }
}
