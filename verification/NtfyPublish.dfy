/** Assembling one push message within its byte limits, and the bounded queue it waits in. */
module NtfyPublish {
  import opened Basics
  import opened Utf8

  const TITLE_BYTES := 120
  const BODY_BYTES := 1900
  const QUEUE_CAP := 128
  const ECHO_TAG := "hermes-agent"
  const NEWLINE: Text := [10]

  datatype Job = Job(title: Text, body: Text, tags: seq<string>)

  /** The line with the https link, or nothing when there is none. */
  function LinkLine(fallback: Text): Text {
    if fallback == [] then [] else NEWLINE + fallback
  }

  /** The body of a message whose https link must stay tappable: what is left of the message, then the link. */
  ghost predicate IsBody(message: Text, suffix: Text, body: Text) {
    if suffix == [] then IsCut(message, BODY_BYTES, body)
    else exists part: Text :: IsCut(message, Room(suffix), part) && IsCut(part + suffix, BODY_BYTES, body)
  }

  /** The bytes the link leaves for the message. */
  function Room(suffix: Text): nat {
    if |Encode(suffix)| <= BODY_BYTES then BODY_BYTES - |Encode(suffix)| else 0
  }

  method Body(message: Text, fallback: Text) returns (body: Text)
    ensures IsBody(message, LinkLine(fallback), body)
  {
    body := message;
    if fallback != [] {
      var suffix := NEWLINE + fallback;
      var room := BODY_BYTES - |Encode(suffix)|;
      var part := Cut(message, if room < 0 then 0 else room);
      body := Cut(part + suffix, BODY_BYTES);
      assert IsCut(message, Room(suffix), part);
    } else {
      body := Cut(message, BODY_BYTES);
    }
  }

  lemma WholeFits(t: Text, r: Text)
    requires IsCut(t, BODY_BYTES, r) && |Encode(t)| <= BODY_BYTES
    ensures r == t
  {
    assert t[..|t|] == t;
  }

  lemma TailFits(t: Text, tail: Text)
    requires EndsWith(t, tail)
    ensures |Encode(tail)| <= |Encode(t)|
  {
    EncodeJoin(t[..|t| - |tail|], tail);
    assert t == t[..|t| - |tail|] + tail;
  }

  lemma LinkAtTheEnd(part: Text, suffix: Text, body: Text)
    requires IsCut(part + suffix, BODY_BYTES, body)
    requires |Encode(suffix)| <= BODY_BYTES ==> |Encode(part)| <= BODY_BYTES - |Encode(suffix)|
    ensures |Encode(suffix)| <= BODY_BYTES ==> body == part + suffix
    ensures EndsWith(body, suffix) <==> |Encode(suffix)| <= BODY_BYTES
  {
    if |Encode(suffix)| <= BODY_BYTES {
      EncodeJoin(part, suffix);
      WholeFits(part + suffix, body);
    } else if EndsWith(body, suffix) {
      TailFits(body, suffix);
    }
  }

  /**
   A body never exceeds its bytes. The link is whole at its end exactly when it fits there by itself, and
   then all of the message that still fits stands in front of it.
   */
  lemma LinkStaysWhole(message: Text, suffix: Text, body: Text)
    requires suffix != [] && IsBody(message, suffix, body)
    ensures |Encode(body)| <= BODY_BYTES
    ensures EndsWith(body, suffix) <==> |Encode(suffix)| <= BODY_BYTES
    ensures |Encode(suffix)| <= BODY_BYTES ==> exists part: Text :: IsCut(message, Room(suffix), part) && body == part + suffix
  {
    var part: Text :| IsCut(message, Room(suffix), part) && IsCut(part + suffix, BODY_BYTES, body);
    LinkAtTheEnd(part, suffix, body);
  }

  // ---------------------------------------------------------------- the queue

  function Wanted(tags: seq<string>): (r: seq<string>)
    ensures ECHO_TAG !in r && "" !in r
  {
    if tags == [] then []
    else
      var last := tags[|tags| - 1];
      if last == "" || last == ECHO_TAG then Wanted(tags[..|tags| - 1]) else Wanted(tags[..|tags| - 1]) + [last]
  }

  class Hub {
    var jobs: seq<Job>

    constructor ()
      ensures jobs == []
    {
      jobs := [];
    }

    /** Accepts exactly when a server and a topic are configured and the queue has room; a full queue drops. */
    method PublishJson(server: string, topic: string, title: Text, message: Text, fallback: Text, tags: seq<string>) returns (accepted: bool)
      requires |jobs| <= QUEUE_CAP
      modifies this
      ensures accepted <==> server != "" && topic != "" && |old(jobs)| < 128
      ensures |jobs| <= QUEUE_CAP && (!accepted ==> jobs == old(jobs))
      ensures accepted ==> |jobs| == |old(jobs)| + 1 && jobs[..|old(jobs)|] == old(jobs)
      ensures accepted ==> var job := jobs[|old(jobs)|];
        IsCut(title, 120, job.title) && IsBody(message, LinkLine(fallback), job.body) && job.tags == ["hermes-agent"] + Wanted(tags)
    {
      if server == "" || topic == "" {
        return false;
      }
      var cutTitle := Cut(title, TITLE_BYTES);
      var body := Body(message, fallback);
      var safe: seq<string> := [ECHO_TAG];
      for i := 0 to |tags|
        invariant safe == [ECHO_TAG] + Wanted(tags[..i])
      {
        assert tags[..i + 1][..i] == tags[..i];
        if tags[i] != "" && tags[i] != ECHO_TAG {
          safe := safe + [tags[i]];
        }
      }
      assert tags[..|tags|] == tags;
      if |jobs| >= QUEUE_CAP {
        return false;
      }
      jobs := jobs + [Job(cutTitle, body, safe)];
      return true;
    }

    /** The one worker sends in the order of acceptance. */
    method Take() returns (job: Job)
      requires jobs != []
      modifies this
      ensures [job] + jobs == old(jobs)
    {
      job := jobs[0];
      jobs := jobs[1..];
    }
  }

  // ---------------------------------------------------------------- a job, spelled out

  /** Without a link the first 1900 bytes of the message; with one that fits, a line break and the link behind what is left. */
  lemma BodyIs(message: Text, fallback: Text, body: Text)
    requires IsBody(message, LinkLine(fallback), body)
    ensures fallback == [] ==> IsCut(message, 1900, body)
    ensures fallback != [] && |Encode(fallback)| <= 1899 ==> InFront(message, 1899 - |Encode(fallback)|, [10] + fallback, body)
    ensures fallback != [] && |Encode(fallback)| > 1899 ==> IsCut([10] + fallback, 1900, body)
  {
    if fallback != [] {
      var suffix := LinkLine(fallback);
      EncodeCons(10, fallback);
      if |Encode(fallback)| <= 1899 {
        LinkStaysWhole(message, suffix, body);
      } else {
        OnlyTheLink(message, suffix, body);
      }
    }
  }

  /** What fits of a message into so many bytes, then the suffix. */
  ghost predicate InFront(message: Text, room: nat, suffix: Text, body: Text) {
    exists part: Text :: IsCut(message, room, part) && body == part + suffix
  }

  lemma OnlyTheLink(message: Text, suffix: Text, body: Text)
    requires suffix != [] && IsBody(message, suffix, body) && |Encode(suffix)| > 1900
    ensures IsCut(suffix, 1900, body)
  {
    var part: Text :| IsCut(message, Room(suffix), part) && IsCut(part + suffix, BODY_BYTES, body);
    SizeAtLeast(part);
    assert part + suffix == suffix;
  }

  /** The tags of a job are the given ones in their order, without the empty ones and the server's own. */
  lemma {:induction false} WantedAre(tags: seq<string>) returns (at: seq<nat>)
    ensures Picks(tags, (tag: string) => tag != "" && tag != "hermes-agent", Wanted(tags), at)
  {
    at := [];
    if tags != [] {
      var front, last := tags[..|tags| - 1], tags[|tags| - 1];
      at := WantedAre(front);
      PicksOneMore(front, last, (tag: string) => tag != "" && tag != "hermes-agent", Wanted(front), at);
      assert tags == front + [last];
      if last != "" && last != "hermes-agent" {
        at := at + [|front|];
      }
    }
  }
}
