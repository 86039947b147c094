/** The message envelope and the composite keys shared by the stores. */
module Envelopes {

  datatype PadEntry = PadEntry(key: string, value: string, author: string, at: nat)

  /** What is marshalled into the payload; messages carry their sender's JSON as it came. */
  datatype Payload =
    | Json(text: string)
    | AgentIs(aid: string, caps: seq<string>, online: bool)
    | PadSet(entry: PadEntry)
    | PadDeleted(key: string)
    | LeaderIs(leader: string)
    | LeaderMoved(leader: string, mover: string)

  /** protocol.Envelope; `number` is the sequence number, 0 until the hub assigns one. */
  datatype Envelope = Envelope(kind: string, session: string, from: string, to: string, payload: Payload, number: nat)

  /** The composite map key used by the presence tracker and the mailbox store. */
  function Key(sid: string, aid: string): string {
    sid + "/" + aid
  }

  predicate SlashFree(s: string) {
    '/' !in s
  }

  /** Key(sid, aid) starts with `p/` in exactly three ways; only the first is the intended one. */
  lemma PrefixMatch(p: string, sid: string, aid: string)
    ensures p + "/" <= Key(sid, aid) <==>
            || p == sid
            || p + "/" <= sid
            || (|sid| < |p| && sid + "/" <= p + "/" && (p + "/")[|sid| + 1..] <= aid)
  {
    var k := Key(sid, aid);
    var q := p + "/";
    assert k[|sid|] == '/' && k[..|sid|] == sid && k[|sid| + 1..] == aid;
    if |p| < |sid| {
      assert q <= k <==> q <= sid by {
        assert forall i :: 0 <= i < |sid| ==> k[i] == sid[i];
      }
    } else if |p| == |sid| {
      assert q <= k <==> p == sid by {
        assert k[..|q|] == sid + "/";
        if q <= k { assert q[..|p|] == k[..|p|]; }
      }
    } else {
      assert q[..|sid| + 1] + q[|sid| + 1..] == q;
      assert k == (sid + "/") + aid;
      if q <= k {
        assert q == k[..|q|];
        assert q[..|sid| + 1] == sid + "/";
        assert q[|sid| + 1..] == aid[..|q| - |sid| - 1];
      }
      if sid + "/" <= q && q[|sid| + 1..] <= aid {
        assert q == (sid + "/") + q[|sid| + 1..];
      }
    }
  }

  lemma SlashInside(p: string, s: string)
    requires |p| < |s| && p + "/" <= s + "/"
    ensures !SlashFree(s)
  {
    assert (s + "/")[|p|] == (p + "/")[|p|];
    assert s[|p|] == '/';
  }

  /** With '/'-free session ids the prefix test selects exactly the keys of that session. */
  lemma PrefixExact(p: string, sid: string, aid: string)
    requires SlashFree(p) && SlashFree(sid)
    ensures p + "/" <= Key(sid, aid) <==> p == sid
  {
    PrefixMatch(p, sid, aid);
    if p + "/" <= sid { SlashInside(p, sid); }
    if |sid| < |p| && sid + "/" <= p + "/" { SlashInside(sid, p); }
  }

  /** Composite keys are injective when session ids are '/'-free; agent ids are unrestricted. */
  lemma KeyInjective(s1: string, a1: string, s2: string, a2: string)
    requires SlashFree(s1) && SlashFree(s2) && Key(s1, a1) == Key(s2, a2)
    ensures s1 == s2 && a1 == a2
  {
    PrefixExact(s1, s2, a2);
    assert Key(s1, a1)[..|s1| + 1] == s1 + "/";
    assert Key(s1, a1)[|s1| + 1..] == a1;
    assert Key(s2, a2)[|s2| + 1..] == a2;
  }

  /** Without the restriction two different members can share a key. */
  lemma KeyCollision()
    ensures Key("a", "b/c") == Key("a/b", "c")
  {
    assert "a" + "/" + "b/c" == "a/b/c" == "a/b" + "/" + "c";
  }
}
