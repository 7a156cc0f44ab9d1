/** The bridge between the provider adapter and the engine: the goroutine that mirrors the
    adapter's events, keeps a bounded preview of the text and remembers rejected keys. */
module LlmAdapter {
  import opened Basics
  import opened RuntimeEvents

  const PREVIEW_CAP := 4096

  predicate Contains(s: string, sub: string) {
    exists i :: 0 <= i <= |s| && OccursAt(s, sub, i)
  }

  predicate OccursAt(s: string, sub: string, i: nat) {
    i + |sub| <= |s| && s[i..i + |sub|] == sub
  }

  predicate IsCredentialError(err: Option<string>) {
    err.Some? &&
    var msg := Lower(err.value);
    || Contains(msg, "api 401")
    || Contains(msg, "api 403")
    || Contains(msg, "user not found")
    || Contains(msg, "invalid api key")
    || Contains(msg, "incorrect api key")
  }

  /** The whole text of a stream. */
  function SourceText(evs: seq<AgentEvent>): string {
    if evs == [] then "" else SourceText(evs[..|evs| - 1]) + evs[|evs| - 1].textToken
  }

  /** The message of the last credential error in the stream, or the one already known. */
  function LastCredentialError(evs: seq<AgentEvent>, known: string): string {
    if evs == [] then known
    else if IsCredentialError(evs[|evs| - 1].err) then evs[|evs| - 1].err.value
    else LastCredentialError(evs[..|evs| - 1], known)
  }

  function LastSourceUsage(evs: seq<AgentEvent>): Option<Usage> {
    if evs == [] then None
    else if evs[|evs| - 1].tokenUsage.Some? then evs[|evs| - 1].tokenUsage
    else LastSourceUsage(evs[..|evs| - 1])
  }

  /** The first cap bytes of s. */
  function Capped(s: string, cap: nat): string {
    s[..Min(cap, |s|)]
  }

  /** Appends as much of a token as the cap still allows. */
  function Grow(preview: string, token: string): string {
    if |preview| < PREVIEW_CAP then
      var remaining := PREVIEW_CAP - |preview|;
      if |token| <= remaining then preview + token else preview + token[..remaining]
    else preview
  }

  lemma GrowIsCapped(text: string, token: string)
    ensures Grow(Capped(text, PREVIEW_CAP), token) == Capped(text + token, PREVIEW_CAP)
  {
  }

  class LLMAdapterBridge {
    var hasAdapter: bool
    var credentialError: string

    constructor ()
      ensures !hasAdapter && credentialError == ""
    {
      hasAdapter, credentialError := false, "";
    }

    method SetAdapter(present: bool)
      modifies this
      ensures hasAdapter == present && credentialError == ""
    {
      hasAdapter, credentialError := present, "";
    }

    method MarkCredentialError(msg: string)
      modifies this`credentialError
      ensures credentialError == msg
    {
      credentialError := msg;
    }

    /** Keeps count of one event, after those already seen. */
    method Observe(ev: AgentEvent, ghost seen: seq<AgentEvent>, ghost known: string,
                   textBytes0: nat, preview0: string, lastUsage0: Option<Usage>)
      returns (textBytes: nat, preview: string, lastUsage: Option<Usage>)
      requires textBytes0 == |SourceText(seen)| && preview0 == Capped(SourceText(seen), PREVIEW_CAP)
      requires lastUsage0 == LastSourceUsage(seen) && credentialError == LastCredentialError(seen, known)
      modifies this`credentialError
      ensures textBytes == |SourceText(seen + [ev])|
      ensures preview == Capped(SourceText(seen + [ev]), PREVIEW_CAP)
      ensures lastUsage == LastSourceUsage(seen + [ev])
      ensures credentialError == LastCredentialError(seen + [ev], known)
    {
      assert (seen + [ev])[..|seen|] == seen;
      textBytes, preview, lastUsage := textBytes0, preview0, lastUsage0;
      if IsCredentialError(ev.err) {
        MarkCredentialError(ev.err.value);
      }
      if ev.tokenUsage.Some? {
        lastUsage := ev.tokenUsage;
      }
      if ev.textToken != "" {
        textBytes := textBytes + |ev.textToken|;
        GrowIsCapped(SourceText(seen), ev.textToken);
        preview := Grow(preview, ev.textToken);
      }
    }

    /** Pumps the adapter's stream into the engine's channel.  Send k fails over to the done
        context when stops(k).  taken counts the events read from the stream. */
    method Pump(src: seq<AgentEvent>, stops: nat -> bool)
      returns (out: seq<StreamEvent>, taken: nat, textBytes: nat, preview: string, lastUsage: Option<Usage>)
      modifies this`credentialError
      ensures taken <= |src|
      ensures out == MirrorAll(src[..taken]) || (0 < taken && stops(taken - 1) && out == MirrorAll(src[..taken - 1]))
      ensures (forall k: nat :: k < |src| ==> !stops(k)) ==> taken == |src| && out == MirrorAll(src)
      ensures textBytes == |SourceText(src[..taken])|
      ensures preview == Capped(SourceText(src[..taken]), 4096)
      ensures lastUsage == LastSourceUsage(src[..taken])
      ensures credentialError == LastCredentialError(src[..taken], old(credentialError))
    {
      out, taken, textBytes, preview, lastUsage := [], 0, 0, "", None;
      while taken < |src|
        invariant taken <= |src|
        invariant out == MirrorAll(src[..taken])
        invariant forall k: nat :: k < taken ==> !stops(k)
        invariant textBytes == |SourceText(src[..taken])|
        invariant preview == Capped(SourceText(src[..taken]), PREVIEW_CAP)
        invariant lastUsage == LastSourceUsage(src[..taken])
        invariant credentialError == LastCredentialError(src[..taken], old(credentialError))
      {
        var ev := src[taken];
        assert src[..taken + 1] == src[..taken] + [ev];
        textBytes, preview, lastUsage := Observe(ev, src[..taken], old(credentialError), textBytes, preview, lastUsage);
        taken := taken + 1;
        if stops(taken - 1) {
          return;
        }
        out := out + [Mirror(ev)];
      }
      assert src[..taken] == src;
    }
  }

  /** Upper and lower case make no difference. */
  lemma CaseDoesNotMatter(a: string, b: string)
    requires |a| == |b| && forall i :: 0 <= i < |a| ==> SameLetter(a[i], b[i])
    ensures IsCredentialError(Some(a)) <==> IsCredentialError(Some(b))
  {
    assert Lower(a) == Lower(b);
  }

  predicate SameLetter(c: char, d: char) {
    c == d || ('a' <= c <= 'z' && d == c - 'a' + 'A') || ('A' <= c <= 'Z' && d == c - 'A' + 'a')
  }

  /** An error is put down to the key exactly when one of these is part of its message. */
  lemma CredentialErrorMeans(m: string)
    ensures IsCredentialError(Some(m)) <==> exists before, after, phrase ::
      phrase in {"api 401", "api 403", "user not found", "invalid api key", "incorrect api key"}
      && Lower(m) == before + phrase + after
    ensures !IsCredentialError(None)
  {
    var phrases := {"api 401", "api 403", "user not found", "invalid api key", "incorrect api key"};
    forall phrase ensures Contains(Lower(m), phrase) <==> exists before, after :: Lower(m) == before + phrase + after {
      ContainsMeans(Lower(m), phrase);
    }
  }

  lemma ContainsMeans(s: string, sub: string)
    ensures Contains(s, sub) <==> exists before, after :: s == before + sub + after
  {
    if i :| 0 <= i <= |s| && OccursAt(s, sub, i) {
      assert s == s[..i] + sub + s[i + |sub|..];
    }
    if before, after :| s == before + sub + after {
      assert OccursAt(s, sub, |before|);
    }
  }
}
