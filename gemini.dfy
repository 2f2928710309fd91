/** The AI estimation service: a retrier with exponential backoff, the
    cleaning of the model's text before `JSON.parse`, the two prompts, and
    the two entry points that wrap the final failure.

    The model call and `JSON.parse` are foreign: they are parameters.
    `generate(prompt, i)` is what the provider answers (text, or a thrown
    error) on the i-th attempt for `prompt`; `parse` is `JSON.parse`.
    Sleeping is not performed: the retrier returns the list of delays it
    would have waited, in milliseconds. */
module Gemini {
  import opened Wrappers
  import opened JsText
  import opened Schema

  // ---------------------------------------------------------------- backoff

  function Pow2(i: nat): (r: nat)
    ensures r >= 1
  {
    if i == 0 then 1 else 2 * Pow2(i - 1)
  }

  /** The sleeps that follow the first `n` failed attempts:
      `initialDelay * 2^i` after attempt `i`. */
  function Backoff(initialDelay: int, n: nat): (r: seq<int>)
    ensures |r| == n
  {
    if n == 0 then [] else Backoff(initialDelay, n - 1) + [initialDelay * Pow2(n - 1)]
  }

  /** Delay `i` is `initialDelay * 2^i`, however many delays follow it. */
  lemma {:induction false} BackoffAt(initialDelay: int, n: nat, i: nat)
    requires i < n
    ensures Backoff(initialDelay, n)[i] == initialDelay * Pow2(i)
  {
    if i < n - 1 {
      BackoffAt(initialDelay, n - 1, i);
    }
  }

  function Sum(s: seq<int>): int {
    if s == [] then 0 else Sum(s[..|s| - 1]) + s[|s| - 1]
  }

  /** The total time slept over `n` backoff delays is
      `initialDelay * (2^n - 1)`. */
  lemma {:induction false} TotalBackoff(initialDelay: int, n: nat)
    ensures Sum(Backoff(initialDelay, n)) == initialDelay * (Pow2(n) - 1)
  {
    if n > 0 {
      var m := n - 1;
      SumBackoffStep(initialDelay, n);
      TotalBackoff(initialDelay, m);
      DoublingSum(Sum(Backoff(initialDelay, n)), Sum(Backoff(initialDelay, m)), initialDelay, Pow2(m), Pow2(n));
    }
  }

  /** The last of `n` delays is the one added to the first `n - 1`. */
  lemma SumBackoffStep(initialDelay: int, n: nat)
    requires n > 0
    ensures Sum(Backoff(initialDelay, n)) == Sum(Backoff(initialDelay, n - 1)) + initialDelay * Pow2(n - 1)
  {
    var b := Backoff(initialDelay, n);
    assert b[..n - 1] == Backoff(initialDelay, n - 1);
  }

  /** Adding delay `d * p` to a total of `d * (p - 1)` gives `d * (2p - 1)`. */
  lemma DoublingSum(total: int, previous: int, d: int, p: int, q: int)
    requires total == previous + d * p && previous == d * (p - 1) && q == 2 * p
    ensures total == d * (q - 1)
  {
  }

  /** `retryWithBackoff(fn, maxRetries, initialDelay)`: call `fn` until a
      call returns, at most `maxRetries` times, sleeping
      `initialDelay * 2^i` after failed attempt `i` unless it was the last.
      `attempt(i)` is the outcome of the i-th call of `fn`. The error is
      `None` when the loop never ran (the source then throws `undefined`). */
  method RetryWithBackoff<T>(attempt: nat -> Result<T, Error>, maxRetries: int, initialDelay: int)
    returns (r: Result<T, Option<Error>>, calls: nat, delays: seq<int>)
    ensures calls <= (if maxRetries > 0 then maxRetries else 0)
    ensures r.Ok? ==> calls >= 1 && attempt(calls - 1) == Ok(r.value)
    ensures r.Err? ==> forall k :: 0 <= k < maxRetries ==> attempt(k).Err?
    ensures forall j :: 0 <= j < calls - 1 ==> attempt(j).Err?
    ensures r.Err? ==> calls == (if maxRetries > 0 then maxRetries else 0)
    ensures r.Err? ==> r.error == (if maxRetries > 0 then Some(attempt(maxRetries - 1).error) else None)
    ensures delays == Backoff(initialDelay, if calls == 0 then 0 else calls - 1)
  {
    var lastError: Option<Error> := None;
    delays := [];
    calls := 0;
    var i := 0;
    while i < maxRetries
      invariant 0 <= i <= (if maxRetries > 0 then maxRetries else 0)
      invariant calls == i
      invariant forall j :: 0 <= j < i ==> attempt(j).Err?
      invariant lastError == if i == 0 then None else Some(attempt(i - 1).error)
      invariant delays == Backoff(initialDelay, if i < maxRetries || i == 0 then i else i - 1)
    {
      var outcome := attempt(i);
      calls := calls + 1;
      if outcome.Ok? {
        r := Ok(outcome.value);
        return;
      }
      lastError := Some(outcome.error);
      if i < maxRetries - 1 {
        var delay := initialDelay * Pow2(i);
        delays := delays + [delay];
      }
      i := i + 1;
    }
    r := Err(lastError);
  }

  // ---------------------------------------------------------------- cleaning the model's text

  /** A global replace of `marker` followed by an optional newline by the
      empty string (`/marker\n?/g`): scanning left to right, each occurrence
      of `marker` is dropped together with a newline directly after it. */
  function StripMarker(s: string, marker: string): (r: string)
    requires |marker| > 0
    ensures |r| <= |s|
    ensures (forall i :: 0 <= i < |s| ==> s[i] != marker[0]) ==> r == s
    decreases |s|
  {
    if |s| == 0 then s
    else if marker <= s then
      var rest := s[|marker|..];
      if |rest| > 0 && rest[0] == '\n' then StripMarker(rest[1..], marker) else StripMarker(rest, marker)
    else
      assert forall i :: 0 <= i < |s| - 1 ==> s[1..][i] == s[i + 1];
      [s[0]] + StripMarker(s[1..], marker)
  }

  /** The cleaning in `generateResponse`: trim the model's text, drop every
      "```json" fence, then every "```" fence (each with a newline after
      it), and trim again. */
  function CleanResponse(raw: string): (r: string)
    ensures r == [] || (!IsWhitespace(r[0]) && !IsWhitespace(r[|r| - 1]))
  {
    Trim(StripMarker(StripMarker(Trim(raw), "```json"), "```"))
  }

  /** Text that contains no backtick is kept verbatim by the fence removal. */
  lemma StripMarkerOfPlain(s: string, marker: string)
    requires |marker| > 0 && marker[0] !in s
    ensures StripMarker(s, marker) == s
  {
    assert forall i :: 0 <= i < |s| ==> s[i] != marker[0] by {
      forall i | 0 <= i < |s| ensures s[i] != marker[0] {
        assert s[i] in s;
      }
    }
  }

  /** A prefix without the marker's first character passes through unchanged. */
  lemma {:induction false} StripMarkerAfterPlain(p: string, t: string, marker: string)
    requires |marker| > 0 && marker[0] !in p
    ensures StripMarker(p + t, marker) == p + StripMarker(t, marker)
    decreases |p|
  {
    if p != [] {
      var s := p + t;
      assert s[0] == p[0];
      assert !(marker <= s);
      assert s[1..] == p[1..] + t;
      StripMarkerAfterPlain(p[1..], t, marker);
      assert [p[0]] + p[1..] == p;
    } else {
      assert p + t == t;
    }
  }

  /** A response with no backtick in it is only trimmed. */
  lemma CleanResponseOfPlainText(raw: string)
    requires '`' !in raw
    ensures CleanResponse(raw) == Trim(raw)
  {
    var t := Trim(raw);
    var a := LeadingWhitespace(raw);
    assert '`' !in t by {
      forall i | 0 <= i < |t| ensures t[i] != '`' {
        assert t[i] == raw[a + i];
        assert raw[a + i] in raw;
      }
    }
    StripMarkerOfPlain(t, "```json");
    StripMarkerOfPlain(t, "```");
    TrimIdempotent(raw);
  }

  /** "```" on its own is not a "```json" fence and survives the first pass. */
  lemma BareFenceKept()
    ensures StripMarker("```", "```json") == "```"
  {
    assert "```"[1..] == "``";
    assert "``"[1..] == "`";
    assert "`"[1..] == "";
  }

  /** The "```" pass removes a closing fence at the very end. */
  lemma ClosingFenceRemoved()
    ensures StripMarker("```", "```") == ""
  {
    assert "```"[3..] == "";
  }

  /** Text with a newline at index `k` does not start with a marker that
      has no newline there. */
  lemma NotMarkerAt(s: string, marker: string, k: nat)
    requires k < |marker| && k < |s| && s[k] == '\n' && marker[k] != '\n'
    ensures !(marker <= s)
  {
  }

  /** A character where the marker does not start is kept. */
  lemma StripMarkerKeepsChar(c: char, t: string, marker: string)
    requires |marker| > 0 && !(marker <= [c] + t)
    ensures StripMarker([c] + t, marker) == [c] + StripMarker(t, marker)
  {
    assert ([c] + t)[1..] == t;
  }

  /** Three characters where the marker does not start are kept. */
  lemma StripMarkerKeepsThree(a: char, b: char, c: char, x: string, marker: string)
    requires |marker| > 0
    requires !(marker <= [a] + ([b] + ([c] + x))) && !(marker <= [b] + ([c] + x)) && !(marker <= [c] + x)
    ensures StripMarker([a] + ([b] + ([c] + x)), marker) == [a] + ([b] + ([c] + StripMarker(x, marker)))
  {
    StripMarkerKeepsChar(c, x, marker);
    StripMarkerKeepsChar(b, [c] + x, marker);
    StripMarkerKeepsChar(a, [b] + ([c] + x), marker);
  }

  /** A "```" fence followed by a newline is kept by a pass whose marker is
      longer than three characters and has no newline among its first
      four, such as "```json". */
  lemma LongerMarkerSkipsBareFence(x: string, marker: string)
    requires |x| > 0 && x[0] == '\n'
    requires |marker| > 3 && marker[1] != '\n' && marker[2] != '\n' && marker[3] != '\n'
    ensures StripMarker("```" + x, marker) == "```" + StripMarker(x, marker)
  {
    var s3 := ['`'] + (['`'] + (['`'] + x));
    var r := StripMarker(x, marker);
    NotMarkerAt(['`'] + x, marker, 1);
    NotMarkerAt(['`'] + (['`'] + x), marker, 2);
    NotMarkerAt(s3, marker, 3);
    StripMarkerKeepsThree('`', '`', '`', x, marker);
    FenceChars(x);
    FenceChars(r);
  }

  /** "```" + x, one backtick at a time. */
  lemma FenceChars(x: string)
    ensures ['`'] + (['`'] + (['`'] + x)) == "```" + x
  {
  }

  /** A JSON body wrapped in a "```json" fence comes out as the trimmed body. */
  lemma CleanResponseOfJsonFence(raw: string, body: string)
    requires '`' !in body
    requires Trim(raw) == "```json\n" + body + "\n```"
    ensures CleanResponse(raw) == Trim(body)
  {
    var inner := body + "\n";
    assert '`' !in inner;
    assert Trim(raw) == "```json" + ("\n" + inner + "```");
    JsonPassStripsJsonBlock(inner);
    BarePassStripsClosingFence(inner);
    TrimIgnoresTrailingWhitespace(body, "\n");
  }

  /** The "```json" pass removes the opening fence and its newline. */
  lemma JsonPassStripsJsonBlock(inner: string)
    requires '`' !in inner
    ensures StripMarker("```json" + ("\n" + inner + "```"), "```json") == inner + "```"
  {
    var t := "```json" + ("\n" + inner + "```");
    assert "```json" <= t;
    assert t[7..] == "\n" + inner + "```";
    assert t[7..][1..] == inner + "```";
    StripMarkerAfterPlain(inner, "```", "```json");
    BareFenceKept();
  }

  /** The "```" pass then removes the closing fence. */
  lemma BarePassStripsClosingFence(inner: string)
    requires '`' !in inner
    ensures StripMarker(inner + "```", "```") == inner
  {
    StripMarkerAfterPlain(inner, "```", "```");
    ClosingFenceRemoved();
    assert inner + "" == inner;
  }

  /** The "```json" pass leaves a bare fenced block untouched. */
  lemma JsonPassKeepsBareBlock(inner: string)
    requires '`' !in inner
    ensures StripMarker("```" + ("\n" + inner + "```"), "```json") == "```" + ("\n" + inner + "```")
  {
    var x := "\n" + inner + "```";
    LongerMarkerSkipsBareFence(x, "```json");
    assert x == ("\n" + inner) + "```";
    StripMarkerAfterPlain("\n" + inner, "```", "```json");
    BareFenceKept();
  }

  /** The "```" pass removes both fences of a bare fenced block. */
  lemma BarePassStripsBareBlock(inner: string)
    requires '`' !in inner
    ensures StripMarker("```" + ("\n" + inner + "```"), "```") == inner
  {
    var x := "\n" + inner + "```";
    var t := "```" + x;
    assert "```" <= t;
    assert t[3..] == x;
    assert x[1..] == inner + "```";
    StripMarkerAfterPlain(inner, "```", "```");
    ClosingFenceRemoved();
    assert inner + "" == inner;
  }

  /** A body wrapped in a bare "```" fence comes out as the trimmed body. */
  lemma CleanResponseOfBareFence(raw: string, body: string)
    requires '`' !in body
    requires Trim(raw) == "```\n" + body + "\n```"
    ensures CleanResponse(raw) == Trim(body)
  {
    var inner := body + "\n";
    assert '`' !in inner;
    assert Trim(raw) == "```" + ("\n" + inner + "```");
    JsonPassKeepsBareBlock(inner);
    BarePassStripsBareBlock(inner);
    TrimIgnoresTrailingWhitespace(body, "\n");
  }

  // ---------------------------------------------------------------- nested fences

  /** `body` wrapped in `k` nested "```json" fences. */
  function JsonFenced(k: nat, body: string): string {
    if k == 0 then body else "```json\n" + JsonFenced(k - 1, body) + "\n```"
  }

  /** `unit` written `k` times. */
  function Repeat(unit: string, k: nat): string {
    if k == 0 then "" else unit + Repeat(unit, k - 1)
  }

  /** `k` opening "```json" fences, each with its newline. */
  function Openers(k: nat): string {
    Repeat("```json\n", k)
  }

  /** `k` closing fences, each after a newline. */
  function Closers(k: nat): string {
    Repeat("\n```", k)
  }

  /** One more unit may be added at either end. */
  lemma {:induction false} RepeatAppend(unit: string, k: nat)
    ensures Repeat(unit, k) + unit == Repeat(unit, k + 1)
  {
    if k > 0 {
      RepeatAppend(unit, k - 1);
      assert Repeat(unit, k) + unit == unit + (Repeat(unit, k - 1) + unit);
    }
  }

  /** Wrapping a flat block in one more pair of fences keeps it flat. */
  lemma WrapFlat(open: string, close: string, opens: string, body: string, closes: string)
    ensures open + (opens + (body + closes)) + close == (open + opens) + (body + (closes + close))
  {
  }

  /** Nested fences are the openers, the body and the closers in a row. */
  lemma {:induction false} JsonFencedFlat(k: nat, body: string)
    ensures JsonFenced(k, body) == Openers(k) + (body + Closers(k))
  {
    if k > 0 {
      JsonFencedFlat(k - 1, body);
      RepeatAppend("\n```", k - 1);
      WrapFlat("```json\n", "\n```", Openers(k - 1), body, Closers(k - 1));
    }
  }

  /** A marker is removed together with the newline after it. */
  lemma StripMarkerAtNewline(marker: string, y: string)
    requires |marker| > 0
    ensures StripMarker(marker + ("\n" + y), marker) == StripMarker(y, marker)
  {
    var t := marker + ("\n" + y);
    assert marker <= t;
    assert t[|marker|..] == "\n" + y;
    assert ("\n" + y)[1..] == y;
  }

  /** A newline is kept by a pass whose marker does not start with one. */
  lemma StripMarkerKeepsNewline(y: string, marker: string)
    requires |marker| > 0 && marker[0] != '\n'
    ensures StripMarker("\n" + y, marker) == "\n" + StripMarker(y, marker)
  {
    NotMarkerAt("\n" + y, marker, 0);
    StripMarkerKeepsChar('\n', y, marker);
  }

  /** Regrouping `(marker + "\n") + r + x` around the newline. */
  lemma RegroupAtNewline(marker: string, r: string, x: string)
    ensures (marker + "\n") + r + x == marker + ("\n" + (r + x))
  {
  }

  /** A pass removes every leading copy of its marker with its newline. */
  lemma {:induction false} StripRepeatedMarker(marker: string, k: nat, x: string)
    requires |marker| > 0
    ensures StripMarker(Repeat(marker + "\n", k) + x, marker) == StripMarker(x, marker)
  {
    if k > 0 {
      var r := Repeat(marker + "\n", k - 1);
      calc {
        StripMarker(Repeat(marker + "\n", k) + x, marker);
        { RegroupAtNewline(marker, r, x); }
        StripMarker(marker + ("\n" + (r + x)), marker);
        { StripMarkerAtNewline(marker, r + x); }
        StripMarker(r + x, marker);
        { StripRepeatedMarker(marker, k - 1, x); }
        StripMarker(x, marker);
      }
    } else {
      assert Repeat(marker + "\n", k) + x == x;
    }
  }

  /** Regrouping `marker + (("\n" + marker) + r)` around the newline. */
  lemma RegroupBeforeNewline(marker: string, r: string)
    ensures marker + (("\n" + marker) + r) == marker + ("\n" + (marker + r))
  {
  }

  /** A pass removes its marker followed by any number of newline-marker pairs. */
  lemma {:induction false} StripMarkerAndRepeats(marker: string, j: nat)
    requires |marker| > 0
    ensures StripMarker(marker + Repeat("\n" + marker, j), marker) == ""
  {
    if j == 0 {
      StripMarkerAlone(marker);
    } else {
      var r := Repeat("\n" + marker, j - 1);
      calc {
        StripMarker(marker + Repeat("\n" + marker, j), marker);
        { RegroupBeforeNewline(marker, r); }
        StripMarker(marker + ("\n" + (marker + r)), marker);
        { StripMarkerAtNewline(marker, marker + r); }
        StripMarker(marker + r, marker);
        { StripMarkerAndRepeats(marker, j - 1); }
        "";
      }
    }
  }

  /** A pass removes its marker standing alone. */
  lemma StripMarkerAlone(marker: string)
    requires |marker| > 0
    ensures StripMarker(marker + Repeat("\n" + marker, 0), marker) == ""
  {
    var t := marker + Repeat("\n" + marker, 0);
    assert t == marker && marker <= t;
    assert t[|marker|..] == "";
  }

  /** The "```json" pass removes every opener with its newline. */
  lemma JsonPassStripsOpeners(k: nat, x: string)
    ensures StripMarker(Openers(k) + x, "```json") == StripMarker(x, "```json")
  {
    assert "```json" + "\n" == "```json\n";
    StripRepeatedMarker("```json", k, x);
  }

  /** A closer is a newline followed by a fence. */
  lemma CloserSplits(k: nat)
    requires k > 0
    ensures Closers(k) == "\n" + ("```" + Closers(k - 1))
    ensures Closers(k)[0] == '\n'
  {
    assert Closers(k) == "\n```" + Closers(k - 1);
  }

  /** The "```json" pass keeps the closers. */
  lemma {:induction false} JsonPassKeepsClosers(k: nat)
    ensures StripMarker(Closers(k), "```json") == Closers(k)
    decreases k, 0
  {
    if k > 0 {
      var x := Closers(k - 1);
      calc {
        StripMarker(Closers(k), "```json");
        { CloserSplits(k); }
        StripMarker("\n" + ("```" + x), "```json");
        { StripMarkerKeepsNewline("```" + x, "```json"); }
        "\n" + StripMarker("```" + x, "```json");
        { JsonPassKeepsFenceBeforeClosers(k - 1); }
        "\n" + ("```" + x);
        { CloserSplits(k); }
        Closers(k);
      }
    }
  }

  /** The "```json" pass keeps a fence followed by closers. */
  lemma {:induction false} JsonPassKeepsFenceBeforeClosers(j: nat)
    ensures StripMarker("```" + Closers(j), "```json") == "```" + Closers(j)
    decreases j, 1
  {
    if j == 0 {
      assert "```" + Closers(j) == "```";
      BareFenceKept();
    } else {
      CloserSplits(j);
      LongerMarkerSkipsBareFence(Closers(j), "```json");
      JsonPassKeepsClosers(j);
    }
  }

  /** The "```" pass leaves only the first closer's newline. */
  lemma BarePassOnClosers(k: nat)
    requires k > 0
    ensures StripMarker(Closers(k), "```") == "\n"
  {
    var y := "```" + Closers(k - 1);
    calc {
      StripMarker(Closers(k), "```");
      { CloserSplits(k); }
      StripMarker("\n" + y, "```");
      { StripMarkerKeepsNewline(y, "```"); }
      "\n" + StripMarker(y, "```");
      { assert "\n" + "```" == "\n```"; StripMarkerAndRepeats("```", k - 1); }
      "\n" + "";
    }
  }

  /** The "```json" pass on nested fences leaves the body and the closers. */
  lemma JsonPassOnNested(k: nat, body: string)
    requires '`' !in body
    ensures StripMarker(Openers(k) + (body + Closers(k)), "```json") == body + Closers(k)
  {
    JsonPassStripsOpeners(k, body + Closers(k));
    StripMarkerAfterPlain(body, Closers(k), "```json");
    JsonPassKeepsClosers(k);
  }

  /** The "```" pass then leaves the body and one newline. */
  lemma BarePassOnNested(k: nat, body: string)
    requires '`' !in body && k > 0
    ensures StripMarker(body + Closers(k), "```") == body + "\n"
  {
    StripMarkerAfterPlain(body, Closers(k), "```");
    BarePassOnClosers(k);
  }

  /** A body inside any number of nested "```json" fences comes out as the
      trimmed body: the global replaces strip every opener and closer. */
  lemma CleanResponseOfNestedJsonFences(raw: string, body: string, k: nat)
    requires '`' !in body
    requires Trim(raw) == JsonFenced(k, body)
    ensures CleanResponse(raw) == Trim(body)
  {
    if k == 0 {
      StripMarkerOfPlain(body, "```json");
      StripMarkerOfPlain(body, "```");
    } else {
      JsonFencedFlat(k, body);
      JsonPassOnNested(k, body);
      BarePassOnNested(k, body);
      TrimIgnoresTrailingWhitespace(body, "\n");
    }
  }

  // ---------------------------------------------------------------- one attempt

  /** One call of `generateResponse`: ask the model for `prompt`; a failed
      call fails the attempt with the provider's error, and a returned text
      is cleaned and handed to `JSON.parse`. */
  function GenerateResponse(
    prompt: string, generate: (string, nat) -> Result<string, Error>,
    parse: string -> Result<Json, Error>, i: nat): (r: Result<Json, Error>)
    ensures generate(prompt, i).Err? ==> r == Err(generate(prompt, i).error)
    ensures generate(prompt, i).Ok? ==> r == parse(CleanResponse(generate(prompt, i).value))
  {
    match generate(prompt, i)
    case Err(e) => Err(e)
    case Ok(text) => parse(CleanResponse(text))
  }

  /** The first `n` calls of `generateResponse` for `prompt` all fail. */
  predicate CallsFail(
    prompt: string, generate: (string, nat) -> Result<string, Error>,
    parse: string -> Result<Json, Error>, n: int)
  {
    forall j :: 0 <= j < n ==> GenerateResponse(prompt, generate, parse, j).Err?
  }

  /** An answer holding a JSON body in a "```json" fence is parsed as the
      trimmed body. */
  lemma GenerateResponseOfJsonFence(
    prompt: string, generate: (string, nat) -> Result<string, Error>,
    parse: string -> Result<Json, Error>, i: nat, body: string)
    requires generate(prompt, i).Ok? && '`' !in body
    requires Trim(generate(prompt, i).value) == "```json\n" + body + "\n```"
    ensures GenerateResponse(prompt, generate, parse, i) == parse(Trim(body))
  {
    CleanResponseOfJsonFence(generate(prompt, i).value, body);
  }

  /** An answer without a backtick is parsed as the trimmed answer. */
  lemma GenerateResponseOfPlainText(
    prompt: string, generate: (string, nat) -> Result<string, Error>,
    parse: string -> Result<Json, Error>, i: nat)
    requires generate(prompt, i).Ok? && '`' !in generate(prompt, i).value
    ensures GenerateResponse(prompt, generate, parse, i) == parse(Trim(generate(prompt, i).value))
  {
    CleanResponseOfPlainText(generate(prompt, i).value);
  }

  // ---------------------------------------------------------------- prompts

  /** The body of a single-leg estimate request, each field as the
      template literal renders it. */
  datatype LegRequest = LegRequest(from: string, to: string, mode: string, days: string)

  // The fixed text of the prompts is kept line by line: the lines joined
  // with newlines are the text of the template literal.

  const SingleLegIntro := Join([
    "",
    "You are a travel planning assistant. Estimate travel details for this trip leg.",
    "",
    ""
  ], "\n")

  const SingleLegFormat := Join([
    "",
    "Respond ONLY with a valid JSON object (no markdown, no code blocks) in this exact format:",
    "{",
    "  \"travelTime\": \"estimated travel duration as string\",",
    "  \"ticketCost\": estimated cost as number in INR,",
    "  \"dailyStayCost\": estimated daily accommodation cost as number in INR,",
    "  \"totalStayCost\": total stay cost for all days as number in INR,",
    "  \"totalCost\": total cost (ticket + stay) as number in INR,",
    "  \"budgetReasoning\": \"brief explanation of the estimates\",",
    "  \"assumptions\": [\"assumption 1\", \"assumption 2\"]",
    "}",
    ""
  ], "\n")

  /** A prompt that carries the four fields of a leg, one per line and
      verbatim, between an introduction and a format description. */
  function LegPrompt(intro: string, leg: LegRequest, format: string): (p: string)
    ensures Contains(p, "From: " + leg.from + "\n")
    ensures Contains(p, "To: " + leg.to + "\n")
    ensures Contains(p, "Transport Mode: " + leg.mode + "\n")
    ensures Contains(p, "Stay Duration: " + leg.days + " days\n")
  {
    var fromLine := "From: " + leg.from + "\n";
    var toLine := "To: " + leg.to + "\n";
    var modeLine := "Transport Mode: " + leg.mode + "\n";
    var daysLine := "Stay Duration: " + leg.days + " days\n";
    var fromOn := fromLine + (toLine + (modeLine + (daysLine + format)));
    ContainsAtStart(daysLine, format);
    ContainsAtStart(modeLine, daysLine + format);
    ContainsInSuffix(modeLine, daysLine + format, daysLine);
    ContainsAtStart(toLine, modeLine + (daysLine + format));
    ContainsInSuffix(toLine, modeLine + (daysLine + format), modeLine);
    ContainsInSuffix(toLine, modeLine + (daysLine + format), daysLine);
    ContainsAtStart(fromLine, toLine + (modeLine + (daysLine + format)));
    ContainsInSuffix(fromLine, toLine + (modeLine + (daysLine + format)), toLine);
    ContainsInSuffix(fromLine, toLine + (modeLine + (daysLine + format)), modeLine);
    ContainsInSuffix(fromLine, toLine + (modeLine + (daysLine + format)), daysLine);
    ContainsInSuffix(intro, fromOn, fromLine);
    ContainsInSuffix(intro, fromOn, toLine);
    ContainsInSuffix(intro, fromOn, modeLine);
    ContainsInSuffix(intro, fromOn, daysLine);
    intro + fromOn
  }

  /** The single-leg prompt: it names the origin, destination, mode and
      stay, each on its own line and verbatim, then asks for the JSON
      shape of a single-leg estimate. */
  function SingleLegPrompt(leg: LegRequest): (p: string)
    ensures Contains(p, "From: " + leg.from + "\n")
    ensures Contains(p, "To: " + leg.to + "\n")
    ensures Contains(p, "Transport Mode: " + leg.mode + "\n")
    ensures Contains(p, "Stay Duration: " + leg.days + " days\n")
  {
    LegPrompt(SingleLegIntro, leg, SingleLegFormat)
  }

  /** Line `i` of the itinerary description:
      "<i+1>. <city> (<days> days, travel by <mode>)". */
  function StopLine(i: nat, stop: StopRow): (line: string)
    ensures ParseInt(line) == Some(i + 1)
    ensures '\n' !in stop.city && '\n' !in stop.mode ==> '\n' !in line
  {
    var tail := StopLineTail(stop);
    ParseIntOfRendered(i + 1, tail);
    NoNewlineInRendered(i + 1);
    IntToString(i + 1) + tail
  }

  /** What follows the number on a stop's line; it starts with a dot and
      has a newline only where the city or the mode has one. */
  function StopLineTail(stop: StopRow): (tail: string)
    ensures |tail| > 0 && tail[0] == '.'
    ensures '\n' !in stop.city && '\n' !in stop.mode ==> '\n' !in tail
  {
    NoNewlineInRendered(stop.stayDays);
    ". " + (stop.city + (" (" + (IntToString(stop.stayDays) + (" days, travel by " + (stop.mode + ")")))))
  }

  lemma NoNewlineInRendered(n: int)
    ensures '\n' !in IntToString(n)
  {
    var s := IntToString(n);
    forall k | 0 <= k < |s| ensures s[k] != '\n' {
      if n < 0 && k > 0 {
        assert s[k] == NatToString(-n)[k - 1];
      }
    }
  }

  /** The stops, one numbered line each, in stop order. */
  function StopLines(stops: seq<StopRow>): (lines: seq<string>)
    ensures |lines| == |stops|
    ensures forall i :: 0 <= i < |stops| ==> lines[i] == StopLine(i, stops[i])
  {
    seq(|stops|, i requires 0 <= i < |stops| => StopLine(i, stops[i]))
  }

  /** `stopsDescription`: the numbered lines joined with newlines. */
  function StopsDescription(stops: seq<StopRow>): string {
    Join(StopLines(stops), "\n")
  }

  /** The itinerary description has exactly one line per stop, in stop
      order, and line `i` is numbered `i + 1` (as long as no city or mode
      itself contains a newline). */
  lemma StopsDescriptionLines(stops: seq<StopRow>)
    requires |stops| >= 1
    requires forall i :: 0 <= i < |stops| ==> '\n' !in stops[i].city && '\n' !in stops[i].mode
    ensures |Split(StopsDescription(stops), '\n')| == |stops|
    ensures forall i :: 0 <= i < |stops| ==>
      Split(StopsDescription(stops), '\n')[i] == StopLine(i, stops[i]) &&
      ParseInt(Split(StopsDescription(stops), '\n')[i]) == Some(i + 1)
  {
    var lines := StopLines(stops);
    forall i | 0 <= i < |lines| ensures '\n' !in lines[i] {
      assert lines[i] == StopLine(i, stops[i]);
    }
    SplitJoin(lines, '\n');
  }

  const ItineraryIntro := Join([
    "",
    "You are a travel planning assistant. Create a complete travel estimate for this multi-city trip in India.",
    "",
    ""
  ], "\n")

  const ItineraryFormatHead := Join([
    "",
    "Respond ONLY with a valid JSON object (no markdown, no code blocks) in this exact format:",
    "{",
    "  "
  ], "\n")

  const ItineraryFormatTail := Join([
    "",
    "  \"totalDays\": total number of days,",
    "  \"totalEstimatedCost\": total trip cost in INR as number,",
    "  \"legs\": [",
    "    {",
    "      \"from\": \"city name or Starting Point for first leg\",",
    "      \"to\": \"destination city\",",
    "      \"mode\": \"transport mode\",",
    "      \"stayDays\": number of days,",
    "      \"travelTime\": \"estimated travel time\",",
    "      \"travelCost\": estimated travel cost as number,",
    "      \"stayCost\": accommodation cost as number,",
    "      \"legTotal\": total for this leg as number",
    "    }",
    "  ],",
    "  \"summary\": \"brief trip summary\",",
    "  \"tips\": [\"tip 1\", \"tip 2\", \"tip 3\"]",
    "}",
    ""
  ], "\n")

  /** A prompt that names the trip, lists `description` on the lines after
      "Itinerary:", and repeats the trip name inside a format description
      made of `head` and `tail`. */
  function TripPrompt(intro: string, tripName: string, description: string, head: string, tail: string): (p: string)
    ensures Contains(p, "Trip Name: " + tripName + "\n")
    ensures Contains(p, "Itinerary:\n" + description + "\n")
    ensures Contains(p, "\"tripName\": \"" + tripName + "\",")
  {
    var nameLine := "Trip Name: " + tripName + "\n";
    var itinerary := "Itinerary:\n" + description + "\n";
    var nameField := "\"tripName\": \"" + tripName + "\",";
    var format := head + (nameField + tail);
    var nameOn := nameLine + (itinerary + format);
    ContainsAtStart(nameField, tail);
    ContainsInSuffix(head, nameField + tail, nameField);
    ContainsAtStart(itinerary, format);
    ContainsInSuffix(itinerary, format, nameField);
    ContainsAtStart(nameLine, itinerary + format);
    ContainsInSuffix(nameLine, itinerary + format, itinerary);
    ContainsInSuffix(nameLine, itinerary + format, nameField);
    ContainsInSuffix(intro, nameOn, nameLine);
    ContainsInSuffix(intro, nameOn, itinerary);
    ContainsInSuffix(intro, nameOn, nameField);
    intro + nameOn
  }

  /** The itinerary prompt: it names the trip, lists the stop description
      on the lines after "Itinerary:", and repeats the trip name inside the
      JSON shape it asks for. */
  function ItineraryPrompt(tripName: string, stops: seq<StopRow>): (p: string)
    ensures Contains(p, "Trip Name: " + tripName + "\n")
    ensures Contains(p, "Itinerary:\n" + StopsDescription(stops) + "\n")
    ensures Contains(p, "\"tripName\": \"" + tripName + "\",")
  {
    TripPrompt(ItineraryIntro, tripName, StopsDescription(stops), ItineraryFormatHead, ItineraryFormatTail)
  }

  // ---------------------------------------------------------------- the two entry points

  /** The successive calls of `generateResponse` for one prompt. */
  function Attempts(
    prompt: string, generate: (string, nat) -> Result<string, Error>,
    parse: string -> Result<Json, Error>): (a: nat -> Result<Json, Error>)
    ensures forall i: nat :: a(i) == GenerateResponse(prompt, generate, parse, i)
  {
    (i: nat) => GenerateResponse(prompt, generate, parse, i)
  }

  /** The shared body of `estimateTrip` and `estimateItinerary`: up to
      three attempts two, then four, seconds apart; the final error is
      wrapped with `failurePrefix`. */
  method EstimateWith(
    prompt: string, failurePrefix: string,
    generate: (string, nat) -> Result<string, Error>, parse: string -> Result<Json, Error>)
    returns (r: Result<Json, Error>, calls: nat, delays: seq<int>)
    ensures 1 <= calls <= 3
    ensures delays == Backoff(2000, calls - 1)
    ensures r.Ok? ==> GenerateResponse(prompt, generate, parse, calls - 1) == Ok(r.value)
    ensures CallsFail(prompt, generate, parse, calls - 1)
    ensures r.Err? ==> CallsFail(prompt, generate, parse, 3)
    ensures r.Err? ==> (calls == 3 && GenerateResponse(prompt, generate, parse, 2).Err? &&
      r.error == Error(failurePrefix + GenerateResponse(prompt, generate, parse, 2).error.message))
  {
    var attempt := Attempts(prompt, generate, parse);
    var outcome;
    outcome, calls, delays := RetryWithBackoff(attempt, 3, 2000);
    if outcome.Ok? {
      r := Ok(outcome.value);
      assert attempt(calls - 1) == Ok(r.value);
    } else {
      assert outcome.error == Some(attempt(2).error);
      r := Err(Error(failurePrefix + outcome.error.value.message));
      forall k | 0 <= k < 3 ensures GenerateResponse(prompt, generate, parse, k).Err? {
        assert attempt(k) == GenerateResponse(prompt, generate, parse, k);
      }
    }
  }

  const TripFailurePrefix := "Failed to get AI estimation: "

  const ItineraryFailurePrefix := "Failed to get AI estimation for itinerary: "

  /** `estimateTrip`: estimate one leg. */
  method EstimateTrip(
    data: LegRequest, generate: (string, nat) -> Result<string, Error>, parse: string -> Result<Json, Error>)
    returns (r: Result<Json, Error>, calls: nat, delays: seq<int>)
    ensures 1 <= calls <= 3
    ensures delays == Backoff(2000, calls - 1)
    ensures r.Ok? ==> GenerateResponse(SingleLegPrompt(data), generate, parse, calls - 1) == Ok(r.value)
    ensures CallsFail(SingleLegPrompt(data), generate, parse, calls - 1)
    ensures r.Err? ==> CallsFail(SingleLegPrompt(data), generate, parse, 3)
    ensures r.Err? ==> (calls == 3 && GenerateResponse(SingleLegPrompt(data), generate, parse, 2).Err? &&
      r.error == Error(TripFailurePrefix + GenerateResponse(SingleLegPrompt(data), generate, parse, 2).error.message))
  {
    r, calls, delays := EstimateWith(SingleLegPrompt(data), TripFailurePrefix, generate, parse);
  }

  /** `estimateItinerary`: estimate a whole trip from its name and stops. */
  method EstimateItinerary(
    tripName: string, stops: seq<StopRow>,
    generate: (string, nat) -> Result<string, Error>, parse: string -> Result<Json, Error>)
    returns (r: Result<Json, Error>, calls: nat, delays: seq<int>)
    ensures 1 <= calls <= 3
    ensures delays == Backoff(2000, calls - 1)
    ensures r.Ok? ==> GenerateResponse(ItineraryPrompt(tripName, stops), generate, parse, calls - 1) == Ok(r.value)
    ensures CallsFail(ItineraryPrompt(tripName, stops), generate, parse, calls - 1)
    ensures r.Err? ==> CallsFail(ItineraryPrompt(tripName, stops), generate, parse, 3)
    ensures r.Err? ==> (calls == 3 && GenerateResponse(ItineraryPrompt(tripName, stops), generate, parse, 2).Err? &&
      r.error == Error(ItineraryFailurePrefix + GenerateResponse(ItineraryPrompt(tripName, stops), generate, parse, 2).error.message))
  {
    r, calls, delays := EstimateWith(ItineraryPrompt(tripName, stops), ItineraryFailurePrefix, generate, parse);
  }
}
