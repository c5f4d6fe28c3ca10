/** The deterministic part of src/services/gemini-service.js: what
    `detectStudyMaterialQuery` makes of the classifier's answer. The call
    to the model and `JSON.parse` are inputs: the call either fails or
    yields a text, and the parser maps a cleaned text to the three fields
    read from what it parsed, or to `None` when parsing throws or yields
    `null` (reading a field of `null` throws). Any other value that is not
    an object gives three `Null` fields. */
module Gemini {
  import opened Js

  /** The detection object handed back to the text handler. */
  datatype Detection = Detection(isQuery: Value, confidence: Value, reasoning: Value)

  /** The three fields read from the parsed JSON; a missing field is `Null`. */
  datatype Parsed = Parsed(isQuery: Value, confidence: Value, reasoning: Value)

  /** How `model.generateContent(prompt)` and `response.text()` end. */
  datatype Reply = ApiError | Text(text: string)

  const NotConfigured := Detection(Bool(false), Num(0.0), Str("Gemini not configured"))
  const ParseError := Detection(Bool(false), Num(0.0), Str("Parse error"))
  const ErrorOccurred := Detection(Bool(false), Num(0.0), Str("Error occurred"))
  const NoReasoning: string := "No reasoning provided"

  const Fence: string := "```"
  const JsonFence: string := "```json"

  /** The characters `String.prototype.trim` removes: white space and line
      terminators. */
  predicate IsJsWhitespace(c: char)
  {
    c == ' ' || c == '\t' || c == '\n' || c == '\r' || c == '\U{000B}' || c == '\U{000C}'
    || c == '\U{00A0}' || c == '\U{1680}' || ('\U{2000}' <= c <= '\U{200A}')
    || c == '\U{2028}' || c == '\U{2029}' || c == '\U{202F}' || c == '\U{205F}'
    || c == '\U{3000}' || c == '\U{FEFF}'
  }

  function TrimStart(s: string): (t: string)
    ensures |t| <= |s| && t == s[|s| - |t|..]
    ensures forall i :: 0 <= i < |s| - |t| ==> IsJsWhitespace(s[i])
    ensures t == [] || !IsJsWhitespace(t[0])
  {
    if s != [] && IsJsWhitespace(s[0]) then TrimStart(s[1..]) else s
  }

  function TrimEnd(s: string): (t: string)
    ensures |t| <= |s| && t == s[..|t|]
    ensures forall i :: |t| <= i < |s| ==> IsJsWhitespace(s[i])
    ensures t == [] || !IsJsWhitespace(t[|t| - 1])
  {
    if s != [] && IsJsWhitespace(s[|s| - 1]) then TrimEnd(s[..|s| - 1]) else s
  }

  /** `s.trim()`: the slice of `s` left when the white space at both ends
      is removed. */
  function Trim(s: string): (t: string)
    ensures t == [] || (!IsJsWhitespace(t[0]) && !IsJsWhitespace(t[|t| - 1]))
    ensures exists i, j :: 0 <= i <= j <= |s| && t == s[i..j]
                           && (forall k :: 0 <= k < i ==> IsJsWhitespace(s[k]))
                           && (forall k :: j <= k < |s| ==> IsJsWhitespace(s[k]))
  {
    var u := TrimStart(s);
    var t := TrimEnd(u);
    assert t == s[|s| - |u|..|s| - |u| + |t|];
    t
  }

  /** No character of `s` is `c`. */
  predicate Avoids(s: string, c: char)
  {
    forall i :: 0 <= i < |s| ==> s[i] != c
  }

  /** `s.replace(/p\n?/g, "")`: every leftmost, non-overlapping occurrence
      of `p` is removed together with a newline right after it. The text
      never grows. */
  function StripAll(s: string, p: string): (t: string)
    requires p != []
    ensures |t| <= |s|
    decreases |s|
  {
    if s == [] then []
    else if StartsWith(s, p) then
      assert s[..|p|][0] == s[0];
      StripAll(DropNewline(s[|p|..]), p)
    else [s[0]] + StripAll(s[1..], p)
  }

  /** The optional newline right after a removed occurrence. */
  function DropNewline(s: string): string
  {
    if s != [] && s[0] == '\n' then s[1..] else s
  }

  /** The fence cleanup applied to the trimmed text before it is parsed: a
      text that starts with a fence keeps no fence at all, and any other
      text is only trimmed. */
  function CleanFences(text: string): (r: string)
    ensures StartsWith(Trim(text), Fence) ==> !Includes(r, Fence)
    ensures !StartsWith(Trim(text), Fence) ==> r == Trim(text)
  {
    var t := Trim(text);
    if StartsWith(t, JsonFence) then
      assert t[..|JsonFence|][..3] == t[..3] && JsonFence[..3] == Fence;
      var r := StripAll(StripAll(t, JsonFence), Fence);
      StripAllRemovesFences(StripAll(t, JsonFence));
      IncludesFence(r);
      r
    else if StartsWith(t, Fence) then
      var r := StripAll(t, Fence);
      StripAllRemovesFences(t);
      IncludesFence(r);
      r
    else t
  }

  /** A character that cannot begin `p` is kept and the search goes on
      after it. */
  lemma StripAllSkips(c: char, r: string, p: string)
    requires p != [] && c != p[0]
    ensures StripAll([c] + r, p) == [c] + StripAll(r, p)
  {
    var s := [c] + r;
    if |s| >= |p| {
      assert s[..|p|][0] == c;
    }
    assert s[1..] == r;
  }

  /** One step of `StripAllKeepsPlainPrefix`: a character that cannot
      begin `p` joins the kept prefix. */
  lemma StripAllPrefixStep(c: char, tail: string, x: string, p: string)
    requires p != [] && c != p[0]
    requires StripAll(tail + x, p) == tail + StripAll(x, p)
    ensures StripAll(([c] + tail) + x, p) == ([c] + tail) + StripAll(x, p)
  {
    assert ([c] + tail) + x == [c] + (tail + x);
    StripAllSkips(c, tail + x, p);
    assert [c] + (tail + StripAll(x, p)) == ([c] + tail) + StripAll(x, p);
  }

  /** A text of which no character can begin `p` stays in front of what
      follows it: only the rest is searched. */
  lemma {:induction false} StripAllKeepsPlainPrefix(j: string, x: string, p: string)
    requires p != []
    requires Avoids(j, p[0])
    ensures StripAll(j + x, p) == j + StripAll(x, p)
    decreases |j|
  {
    if j == [] {
      assert j + x == x && j + StripAll(x, p) == StripAll(x, p);
    } else {
      var tail := j[1..];
      assert Avoids(tail, p[0]) by {
        forall i | 0 <= i < |tail|
          ensures tail[i] != p[0]
        {
          assert tail[i] == j[i + 1];
        }
      }
      StripAllKeepsPlainPrefix(tail, x, p);
      assert j == [j[0]] + tail;
      StripAllPrefixStep(j[0], tail, x, p);
    }
  }

  /** A text in which `p` cannot begin anywhere is kept as it is. */
  lemma StripAllKeepsPlain(s: string, p: string)
    requires p != [] && Avoids(s, p[0])
    ensures StripAll(s, p) == s
  {
    StripAllKeepsPlainPrefix(s, [], p);
    assert s + [] == s;
  }

  /** A text shorter than `p` holds no occurrence of it. */
  lemma {:induction false} StripAllKeepsShort(s: string, p: string)
    requires p != [] && |s| < |p|
    ensures StripAll(s, p) == s
    decreases |s|
  {
    if s != [] {
      StripAllKeepsShort(s[1..], p);
    }
  }

  /** A text that starts and ends with a character other than white space
      is left alone by `trim`. */
  lemma TrimKeepsBareText(s: string)
    requires s != [] && !IsJsWhitespace(s[0]) && !IsJsWhitespace(s[|s| - 1])
    ensures Trim(s) == s
  {
    assert TrimStart(s) == s;
  }

  /** The closing fence left after the opening one is removed: only the
      fence goes, its newline stays. */
  lemma ClosingFence(j: string, p: string)
    requires p in {JsonFence, Fence}
    requires Avoids(j, '`')
    ensures p == JsonFence ==> StripAll(j + "\n```", p) == j + "\n```"
    ensures p == Fence ==> StripAll(j + "\n```", p) == j + "\n"
  {
    var line := j + "\n";
    assert p[0] == '`';
    assert Avoids(line, p[0]) by {
      forall i | 0 <= i < |line|
        ensures line[i] != p[0]
      {
        if i < |j| {
          assert line[i] == j[i];
        }
      }
    }
    assert j + "\n```" == line + "```";
    StripAllKeepsPlainPrefix(line, "```", p);
    if p == JsonFence {
      StripAllKeepsShort("```", p);
    } else {
      assert StartsWith("```", p);
      assert DropNewline("```"[3..]) == [];
    }
  }

  /** The opening fence goes together with the newline after it. */
  lemma OpeningFence(p: string, j: string)
    requires p in {JsonFence, Fence}
    ensures StripAll(p + ("\n" + j + "\n```"), p) == StripAll(j + "\n```", p)
  {
    var body := "\n" + j + "\n```";
    var s := p + body;
    assert s[..|p|] == p;
    assert s[|p|..] == body;
    assert body[1..] == j + "\n```";
  }

  /** The JSON the classifier wraps in a ```json fence is recovered: for a
      text without backticks, cleaning the fenced answer gives the text
      followed by the newline before the closing fence. */
  lemma JsonFencedRoundTrip(j: string)
    requires Avoids(j, '`')
    ensures CleanFences(JsonFence + "\n" + j + "\n" + Fence) == j + "\n"
  {
    var fenced := JsonFence + "\n" + j + "\n" + Fence;
    assert fenced == JsonFence + ("\n" + j + "\n```");
    TrimKeepsBareText(fenced);
    assert fenced[..|JsonFence|] == JsonFence;
    OpeningFence(JsonFence, j);
    ClosingFence(j, JsonFence);
    ClosingFence(j, Fence);
  }

  /** The same for a plain ``` fence, whatever the wrapped text begins
      with: the newline after the backticks keeps the json pattern from
      applying. */
  lemma PlainFencedRoundTrip(j: string)
    requires Avoids(j, '`')
    ensures CleanFences(Fence + "\n" + j + "\n" + Fence) == j + "\n"
  {
    var fenced := Fence + "\n" + j + "\n" + Fence;
    assert fenced == Fence + ("\n" + j + "\n```");
    TrimKeepsBareText(fenced);
    assert fenced[..|Fence|] == Fence;
    assert fenced[..|JsonFence|][3] == '\n' != JsonFence[3];
    OpeningFence(Fence, j);
    ClosingFence(j, Fence);
  }

  /** The number of backticks `s` starts with. */
  function LeadingTicks(s: string): (n: nat)
    ensures n <= |s|
    ensures forall i :: 0 <= i < n ==> s[i] == '`'
    ensures n < |s| ==> s[n] != '`'
  {
    if s != [] && s[0] == '`' then 1 + LeadingTicks(s[1..]) else 0
  }

  /** Three backticks in a row somewhere in `s`. */
  predicate HasFence(s: string)
  {
    exists i :: 0 <= i && i + 3 <= |s| && s[i] == '`' && s[i + 1] == '`' && s[i + 2] == '`'
  }

  /** Removing fences never makes a run of fewer than three backticks at
      the start longer. */
  lemma {:induction false} StripKeepsShortLead(s: string)
    requires LeadingTicks(s) < 3
    ensures LeadingTicks(StripAll(s, Fence)) == LeadingTicks(s)
    decreases |s|
  {
    if s == [] {
    } else if s[0] != '`' {
      assert !StartsWith(s, Fence);
      assert StripAll(s, Fence) == [s[0]] + StripAll(s[1..], Fence);
    } else {
      var n := LeadingTicks(s);
      if |s| >= 3 {
        assert s[..3][n] != Fence[n];
      }
      assert !StartsWith(s, Fence);
      assert LeadingTicks(s) == 1 + LeadingTicks(s[1..]);
      StripKeepsShortLead(s[1..]);
      var r := StripAll(s[1..], Fence);
      assert StripAll(s, Fence) == [s[0]] + r;
      assert LeadingTicks([s[0]] + r) == 1 + LeadingTicks(([s[0]] + r)[1..]);
      assert ([s[0]] + r)[1..] == r;
    }
  }

  /** Prefixing one character to a text without fences makes a fence only
      when it is a backtick and the text starts with two. */
  lemma ConsFence(c: char, r: string)
    requires !HasFence(r)
    requires c == '`' ==> LeadingTicks(r) < 2
    ensures !HasFence([c] + r)
  {
    var s := [c] + r;
    forall i | 0 <= i && i + 3 <= |s|
      ensures !(s[i] == '`' && s[i + 1] == '`' && s[i + 2] == '`')
    {
      if i == 0 {
        if c == '`' {
          var n := LeadingTicks(r);
          assert r[n] != '`' && s[n + 1] == r[n];
        }
      } else {
        assert s[i] == r[i - 1] && s[i + 1] == r[i] && s[i + 2] == r[i + 1];
      }
    }
  }

  /** After the global removal of "```\n?" no three backticks are left:
      leftmost matching eats every run of backticks three at a time and
      leaves fewer than three, and a newline is removed only right after
      a run that was eaten whole. */
  lemma {:induction false} StripAllRemovesFences(s: string)
    ensures !HasFence(StripAll(s, Fence))
    decreases |s|
  {
    if s == [] {
    } else if StartsWith(s, Fence) {
      StripAllRemovesFences(DropNewline(s[|Fence|..]));
    } else {
      StripAllRemovesFences(s[1..]);
      if s[0] == '`' {
        if |s| >= 3 && s[1] == '`' {
          assert s[..3] == [s[0], s[1], s[2]];
          assert s[2] != '`';
          assert LeadingTicks(s[1..]) == 1 + LeadingTicks(s[2..]);
        }
        assert LeadingTicks(s[1..]) < 2;
        StripKeepsShortLead(s[1..]);
      }
      ConsFence(s[0], StripAll(s[1..], Fence));
    }
  }

  /** `Includes` finds three backticks exactly where `HasFence` does. */
  lemma IncludesFence(c: string)
    ensures Includes(c, Fence) <==> HasFence(c)
  {
    if Includes(c, Fence) {
      var i := IndexOf(c, Fence, 0).value;
      assert c[i..i + 3] == Fence;
      assert c[i] == '`' && c[i + 1] == '`' && c[i + 2] == '`';
    }
    if HasFence(c) {
      var i :| 0 <= i && i + 3 <= |c| && c[i] == '`' && c[i + 1] == '`' && c[i + 2] == '`';
      assert c[i..i + 3] == Fence;
      assert OccursAt(c, Fence, i);
    }
  }

  /** The object built from the parsed fields: `isQuery || false`,
      `confidence || 0`, `reasoning || "No reasoning provided"`. */
  function Normalize(p: Parsed): (d: Detection)
    ensures Truthy(d.isQuery) == Truthy(p.isQuery) && Truthy(d.confidence) == Truthy(p.confidence)
    ensures Truthy(d.reasoning)
    ensures Truthy(p.isQuery) ==> d.isQuery == p.isQuery
    ensures !Truthy(p.isQuery) ==> d.isQuery == Bool(false)
    ensures Truthy(p.confidence) ==> d.confidence == p.confidence
    ensures !Truthy(p.confidence) ==> d.confidence == Num(0.0)
    ensures Truthy(p.reasoning) ==> d.reasoning == p.reasoning
    ensures !Truthy(p.reasoning) ==> d.reasoning == Str(NoReasoning)
  {
    Detection(Or(p.isQuery, Bool(false)), Or(p.confidence, Num(0.0)), Or(p.reasoning, Str(NoReasoning)))
  }

  /** Normalising an already normalised answer changes nothing. */
  lemma NormalizeIdempotent(p: Parsed)
    ensures var d := Normalize(p); Normalize(Parsed(d.isQuery, d.confidence, d.reasoning)) == d
  {
  }

  /** `detectStudyMaterialQuery(message)`, given whether a model is
      configured, how the call ends, and what `JSON.parse` makes of a text.
      It never throws. */
  function Detect(configured: bool, reply: Reply, parse: string -> Option<Parsed>): (d: Detection)
    ensures !configured ==> d == NotConfigured
    ensures configured && reply.ApiError? ==> d == ErrorOccurred
    ensures configured && reply.Text? && parse(CleanFences(reply.text)).None? ==> d == ParseError
    ensures configured && reply.Text? && parse(CleanFences(reply.text)).Some? ==>
              d == Normalize(parse(CleanFences(reply.text)).value)
  {
    if !configured then NotConfigured
    else match reply
      case ApiError => ErrorOccurred
      case Text(text) =>
        match parse(CleanFences(text))
        case None => ParseError
        case Some(p) => Normalize(p)
  }

  /** Every failure answers "not a query" with confidence 0, and every
      answer carries a truthy reasoning. */
  lemma FailuresAreNotQueries(configured: bool, reply: Reply, parse: string -> Option<Parsed>)
    ensures Truthy(Detect(configured, reply, parse).reasoning)
    ensures !configured || reply.ApiError? || (reply.Text? && parse(CleanFences(reply.text)).None?) ==>
              !Truthy(Detect(configured, reply, parse).isQuery)
              && Detect(configured, reply, parse).confidence == Num(0.0)
  {
  }

  /** `isQueryDetectionEnabled()`: `model !== null`, where the module-load
      initialisation creates a model only when an API key is set and
      creating the client does not throw. Without a model every detection
      answers "Gemini not configured". */
  function IsQueryDetectionEnabled(apiKey: string, initThrows: bool): (enabled: bool)
    ensures enabled ==> apiKey != "" && !initThrows
    ensures apiKey != "" && !initThrows ==> enabled
    ensures !enabled ==> forall reply, parse :: Detect(enabled, reply, parse) == NotConfigured
  {
    apiKey != "" && !initThrows
  }
}
