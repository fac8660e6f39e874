/**
  The async-helper placeholder protocol of the template runtime: a wrapped
  helper that returns a thenable leaves a `{#asyncHelperResult <id>}` marker
  in the synchronously rendered text and parks the thenable under `<id>`;
  after rendering, every parked result is awaited and the markers are
  replaced by the awaited values.
 */
module AsyncHelpers {
  import opened JsValues

  /** What a wrapped helper returns for a thenable, up to the id and the closing brace. */
  const MarkerOpen: string := "{#asyncHelperResult "

  /** What the substitution loop looks for before every pass (no trailing space). */
  const Probe: string := "{#asyncHelperResult"

  /**
    An id the replacement pattern `{#asyncHelperResult ([^{}]+)}` can capture
    whole: non-empty and brace-free. The ids of the id generator (seven
    characters of `A-Za-z0-9_-`) are all of this kind.
   */
  predicate MarkerId(id: string) {
    |id| > 0 && forall i :: 0 <= i < |id| ==> id[i] != '{' && id[i] != '}'
  }

  /** The string a wrapped helper returns for a thenable parked under `id`. */
  function Placeholder(id: string): string {
    MarkerOpen + id + "}"
  }

  /** A top-level helper function defined by the joined helper code. */
  datatype Helper = Helper(handle: nat)

  /** `wrapHelperForAsyncSupport(helper, asyncResultMap)` */
  datatype WrappedHelper = AsyncAware(inner: Helper)

  /** Every top-level helper wrapped, under its own name. */
  function WrapAll(fns: map<string, Helper>): map<string, WrappedHelper> {
    map h | h in fns :: AsyncAware(fns[h])
  }

  /**
    The per-pass maps of the protocol: `asyncResultMap` (parked results by id)
    and `resolvedResultsMap` (awaited results, as text, by id).
   */
  class AsyncResultBroker {
    var pending: map<string, Settlement>
    var resolved: map<string, string>

    constructor ()
      ensures pending == map[] && resolved == map[]
    {
      pending := map[];
      resolved := map[];
    }

    /**
      One call of a wrapped helper, given what the wrapped helper itself
      returned and the id the id generator would hand out next.
     */
    method CallWrapped(fnResult: Value, freshId: string) returns (ret: Value)
      requires MarkerId(freshId) && freshId !in pending
      modifies this
      ensures resolved == old(resolved)
      ensures IsNullish(fnResult) || !HasCallableThen(fnResult) ==>
                ret == fnResult && pending == old(pending)
      ensures !IsNullish(fnResult) && HasCallableThen(fnResult) ==>
                ret == Str(Placeholder(freshId)) &&
                pending == old(pending)[freshId := fnResult.settles]
    {
      if IsNullish(fnResult) || !HasCallableThen(fnResult) {
        return fnResult;
      }
      pending := pending[freshId := fnResult.settles];
      ret := Str(Placeholder(freshId));
    }

    /**
      The drain loop: await every parked result, one at a time and in no
      particular order, moving it from `pending` to `resolved`. The first
      rejection met is thrown.
     */
    method Drain() returns (failure: Option<JsError>)
      modifies this
      ensures failure.None? <==> AllFulfilled(old(pending))
      ensures failure.None? ==>
                pending == map[] && resolved == old(resolved) + Texts(old(pending))
      ensures failure.Some? ==>
                exists k :: k in old(pending) && old(pending)[k] == Rejected(failure.value)
    {
      while pending != map[]
        invariant pending.Keys <= old(pending).Keys
        invariant forall k :: k in pending ==> pending[k] == old(pending)[k]
        invariant forall k :: k in old(pending) && k !in pending ==> old(pending)[k].Fulfilled?
        invariant forall k :: k in resolved <==> k in old(resolved) || (k in old(pending) && k !in pending)
        invariant forall k :: k in resolved ==>
                    resolved[k] == if k in old(pending) && k !in pending then old(pending)[k].text else old(resolved)[k]
        decreases pending.Keys
      {
        var k :| k in pending;
        match pending[k] {
          case Rejected(e) =>
            return Some(e);
          case Fulfilled(text) =>
            resolved := resolved[k := text];
            pending := pending - {k};
        }
      }
      assert AllFulfilled(old(pending));
      ghost var want := old(resolved) + Texts(old(pending));
      assert forall k :: k in resolved <==> k in want;
      assert forall k :: k in resolved ==> resolved[k] == want[k];
      return None;
    }
  }

  ghost predicate AllFulfilled(p: map<string, Settlement>) {
    forall k :: k in p ==> p[k].Fulfilled?
  }

  /** The awaited texts of the fulfilled entries. */
  function Texts(p: map<string, Settlement>): map<string, string> {
    map k | k in p && p[k].Fulfilled? :: p[k].text
  }

  /** Length of the longest prefix of `s` without `{` or `}`: what `[^{}]+` consumes. */
  function BraceFreeRun(s: string): (n: nat)
    ensures n <= |s|
    ensures forall i :: 0 <= i < n ==> s[i] != '{' && s[i] != '}'
    ensures n < |s| ==> s[n] == '{' || s[n] == '}'
    decreases |s|
  {
    if s == [] || s[0] == '{' || s[0] == '}' then 0 else 1 + BraceFreeRun(s[1..])
  }

  /** The id captured by `{#asyncHelperResult ([^{}]+)}` when it matches at the start of `s`. */
  function MatchAt(s: string): (m: Option<string>)
    ensures m.Some? ==> MarkerId(m.value) && StartsWith(s, Placeholder(m.value))
  {
    if StartsWith(s, MarkerOpen) then
      var n := BraceFreeRun(s[|MarkerOpen|..]);
      if n > 0 && |MarkerOpen| + n < |s| && s[|MarkerOpen| + n] == '}' then
        var id := s[|MarkerOpen|..|MarkerOpen| + n];
        assert s[..|Placeholder(id)|] == Placeholder(id);
        Some(id)
      else None
    else None
  }

  /**
    The converse of `MatchAt`'s contract: a placeholder for a well-formed id
    at the start of the text is matched, and it captures exactly that id,
    whatever follows it.
   */
  lemma PlaceholderIsMatched(id: string, rest: string)
    requires MarkerId(id)
    ensures MatchAt(Placeholder(id) + rest) == Some(id)
  {
    var s := Placeholder(id) + rest;
    var n := |MarkerOpen|;
    assert s[..n] == MarkerOpen;
    assert s[n..] == id + ("}" + rest);
    assert s[n + |id|] == '}';
    var run := BraceFreeRun(s[n..]);
    assert run == |id| by {
      assert forall i :: 0 <= i < |id| ==> s[n..][i] == id[i];
      assert s[n..][|id|] == '}';
    }
    assert s[n..n + |id|] == id;
  }

  /**
    `${resolvedResultsMap.get(id)}`: the resolved text of the id, and the
    text `undefined` for an id that has no resolved result.
   */
  function Lookup(resolved: map<string, string>, id: string): (text: string)
    ensures id in resolved ==> text == resolved[id]
    ensures id !in resolved ==> text == "undefined"
  {
    if id in resolved then resolved[id] else "undefined"
  }

  /**
    One `contentResult.replace(/{#asyncHelperResult ([^{}]+)}/g, ...)`: scan
    left to right, replace each match by the text of its id and continue
    after the match.
   */
  function ReplacePass(s: string, resolved: map<string, string>): (r: string)
    ensures MatchAt(s).Some? ==> StartsWith(r, Lookup(resolved, MatchAt(s).value))
    decreases |s|
  {
    if s == [] then []
    else match MatchAt(s)
      case Some(id) =>
        var head := Lookup(resolved, id);
        var r := head + ReplacePass(s[|Placeholder(id)|..], resolved);
        assert r[..|head|] == head;
        r
      case None => [s[0]] + ReplacePass(s[1..], resolved)
  }

  /**
    The substitution loop `while (contentResult.includes(Probe)) ...` allowed
    at most `fuel` passes: the settled text, or None when passes run out.
   */
  function Settle(s: string, resolved: map<string, string>, fuel: nat): (r: Option<string>)
    ensures r.Some? ==> !Contains(r.value, Probe)
    decreases fuel
  {
    if !Contains(s, Probe) then Some(s)
    else if fuel == 0 then None
    else Settle(ReplacePass(s, resolved), resolved, fuel - 1)
  }

  /** The substitution loop, with at most `fuel` passes. */
  method SubstitutePlaceholders(content: string, resolved: map<string, string>, fuel: nat)
    returns (out: Option<string>)
    ensures out == Settle(content, resolved, fuel)
  {
    var s, f := content, fuel;
    while Contains(s, Probe)
      invariant Settle(s, resolved, f) == Settle(content, resolved, fuel)
      decreases f
    {
      if f == 0 {
        return None;
      }
      var next := ReplacePass(s, resolved);
      assert Settle(s, resolved, f) == Settle(next, resolved, f - 1);
      s, f := next, f - 1;
    }
    return Some(s);
  }

  /**
    Rendered text as the engine produces it around wrapped helper calls:
    literal text, the placeholder of one call, more text, ... , a tail.
   */
  datatype Segment = Segment(text: string, id: string)

  function Render(segments: seq<Segment>, tail: string): string
    decreases |segments|
  {
    if segments == [] then tail
    else segments[0].text + (Placeholder(segments[0].id) + Render(segments[1..], tail))
  }

  /** The reference result: every placeholder replaced by the text of its id. */
  function Fill(segments: seq<Segment>, tail: string, resolved: map<string, string>): string
    decreases |segments|
  {
    if segments == [] then tail
    else segments[0].text + (Lookup(resolved, segments[0].id) + Fill(segments[1..], tail, resolved))
  }

  /** Markers only where placeholders are, and every placeholder id capturable. */
  ghost predicate WellFormed(segments: seq<Segment>, tail: string) {
    && (forall i :: 0 <= i < |segments| ==> !Contains(segments[i].text, Probe))
    && (forall i :: 0 <= i < |segments| ==> MarkerId(segments[i].id))
    && !Contains(tail, Probe)
  }

  lemma MarkerOpenHasOneBrace(k: nat)
    requires 0 < k < |MarkerOpen|
    ensures MarkerOpen[k] != '{'
  {
  }

  /** A scan over text without the probe, followed by a `{` or the end, copies that text. */
  lemma {:induction false} PassCopiesText(t: string, rest: string, resolved: map<string, string>)
    requires !Contains(t, Probe)
    requires rest == [] || rest[0] == '{'
    ensures ReplacePass(t + rest, resolved) == t + ReplacePass(rest, resolved)
  {
    if t == [] {
      assert t + rest == rest;
    } else {
      var s := t + rest;
      assert !StartsWith(s, MarkerOpen) by {
        if |t| >= |Probe| {
          assert !StartsWith(t, Probe);
          assert s[..|Probe|] == t[..|Probe|];
          assert MarkerOpen[..|Probe|] == Probe;
        } else if |s| >= |MarkerOpen| {
          assert s[|t|] == '{';
          MarkerOpenHasOneBrace(|t|);
        }
      }
      assert s[1..] == t[1..] + rest;
      PassCopiesText(t[1..], rest, resolved);
    }
  }

  /** A pass over text that holds no marker leaves it as it is. */
  lemma PassKeepsMarkerFreeText(s: string, resolved: map<string, string>)
    requires !Contains(s, Probe)
    ensures ReplacePass(s, resolved) == s
  {
    PassCopiesText(s, [], resolved);
    assert s + [] == s;
  }

  /** A placeholder at the front of the scan is replaced by the text of its id. */
  lemma PassReplacesPlaceholder(id: string, rest: string, resolved: map<string, string>)
    requires MarkerId(id)
    ensures ReplacePass(Placeholder(id) + rest, resolved) == Lookup(resolved, id) + ReplacePass(rest, resolved)
  {
    PlaceholderIsMatched(id, rest);
    assert (Placeholder(id) + rest)[|Placeholder(id)|..] == rest;
  }

  /**
    One pass over well-formed rendered text is exactly the reference fill:
    each placeholder is replaced by the text of its id ("undefined" for an
    unknown id) and everything else is kept.
   */
  lemma {:induction false} PassFillsRendered(segments: seq<Segment>, tail: string, resolved: map<string, string>)
    requires WellFormed(segments, tail)
    ensures ReplacePass(Render(segments, tail), resolved) == Fill(segments, tail, resolved)
    decreases |segments|
  {
    if segments == [] {
      PassCopiesText(tail, [], resolved);
      assert tail + [] == tail;
    } else {
      var t, id := segments[0].text, segments[0].id;
      var rest := Render(segments[1..], tail);
      assert !Contains(t, Probe) && MarkerId(id);
      assert WellFormed(segments[1..], tail) by {
        forall i | 0 <= i < |segments[1..]|
          ensures !Contains(segments[1..][i].text, Probe) && MarkerId(segments[1..][i].id)
        {
          assert segments[1..][i] == segments[i + 1];
        }
      }
      PassCopiesText(t, Placeholder(id) + rest, resolved);
      PassReplacesPlaceholder(id, rest, resolved);
      PassFillsRendered(segments[1..], tail, resolved);
    }
  }

  /**
    The substitution loop is left after one pass when the markers in the
    rendered text are well formed and the filled text has no marker left.
   */
  lemma OnePassSettles(segments: seq<Segment>, tail: string, resolved: map<string, string>, fuel: nat)
    requires WellFormed(segments, tail)
    requires !Contains(Fill(segments, tail, resolved), Probe)
    requires fuel >= 1
    ensures Settle(Render(segments, tail), resolved, fuel) == Some(Fill(segments, tail, resolved))
  {
    var rendered := Render(segments, tail);
    PassFillsRendered(segments, tail, resolved);
    if !Contains(rendered, Probe) {
      PassCopiesText(rendered, [], resolved);
      assert rendered + [] == rendered;
    }
  }
}
