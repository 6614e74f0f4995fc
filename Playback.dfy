/**
 * The playback scheduler of the voice session: a cursor (`nextStartTimeRef`) and the set of
 * live audio sources (`sourcesRef`). Each decoded chunk is started at max(cursor, clock) and the
 * cursor then moves past it; a source drops out of the set when it ends; an interruption stops
 * every live source, empties the set and puts the cursor back to 0.
 */
module Playback {

  /** Audio-clock time and buffer durations, in seconds; neither is ever negative. */
  type Time = r: real | 0.0 <= r

  /** Identity of an AudioBufferSourceNode. */
  type SourceId = nat

  /** A decoded chunk: the audio clock when it is scheduled, and the buffer's duration. */
  datatype Chunk = Chunk(arrival: Time, duration: Time)

  function Max(a: Time, b: Time): (m: Time)
    ensures m >= a && m >= b && (m == a || m == b)
  {
    if a < b then b else a
  }

  // ---------------------------------------------------------------------------------------
  // The schedule as a function of the chunks, in the order they were scheduled.
  // ---------------------------------------------------------------------------------------

  /** The cursor after scheduling `chunks`, one after the other, from cursor `c`. */
  function CursorAfter(c: Time, chunks: seq<Chunk>): Time
  {
    if chunks == [] then c
    else
      var last := chunks[|chunks| - 1];
      Max(CursorAfter(c, chunks[..|chunks| - 1]), last.arrival) + last.duration
  }

  /** The start time given to each chunk of `chunks`, scheduled one after the other from cursor `c`. */
  function Starts(c: Time, chunks: seq<Chunk>): (r: seq<Time>)
    ensures |r| == |chunks|
  {
    if chunks == [] then []
    else
      var init := chunks[..|chunks| - 1];
      Starts(c, init) + [Max(CursorAfter(c, init), chunks[|chunks| - 1].arrival)]
  }

  /** Scheduling one more chunk leaves the earlier start times as they were. */
  lemma {:induction false} StartsPrefix(c: Time, chunks: seq<Chunk>, j: nat)
    requires j <= |chunks|
    ensures Starts(c, chunks)[..j] == Starts(c, chunks[..j])
    decreases |chunks|
  {
    if j < |chunks| {
      var init := chunks[..|chunks| - 1];
      assert init[..j] == chunks[..j];
      StartsPrefix(c, init, j);
      assert Starts(c, chunks)[..j] == Starts(c, init)[..j];
    } else {
      assert chunks[..j] == chunks;
    }
  }

  /**
   * Chunk k starts at the later of the cursor left by the chunks before it and the clock when
   * it arrived.
   */
  lemma StartAt(c: Time, chunks: seq<Chunk>, k: nat)
    requires k < |chunks|
    ensures Starts(c, chunks)[k] == Max(CursorAfter(c, chunks[..k]), chunks[k].arrival)
  {
    StartsPrefix(c, chunks, k + 1);
    var pre := chunks[..k + 1];
    assert pre[..k] == chunks[..k];
    assert Starts(c, chunks)[k] == Starts(c, pre)[k];
  }

  /** The cursor after a batch of chunks is the end of the last chunk's interval. */
  lemma CursorIsLastEnd(c: Time, chunks: seq<Chunk>)
    requires chunks != []
    ensures CursorAfter(c, chunks) == Starts(c, chunks)[|chunks| - 1] + chunks[|chunks| - 1].duration
  {
  }

  /**
   * Scheduled intervals never overlap: each chunk starts no earlier than the end of the chunk
   * scheduled just before it.
   */
  lemma NoOverlap(c: Time, chunks: seq<Chunk>, k: nat)
    requires k + 1 < |chunks|
    ensures Starts(c, chunks)[k] + chunks[k].duration <= Starts(c, chunks)[k + 1]
  {
    StartAt(c, chunks, k + 1);
    StartsPrefix(c, chunks, k + 1);
    var pre := chunks[..k + 1];
    assert pre[..k] == chunks[..k];
    assert Starts(c, chunks)[k] == Starts(c, pre)[k];
    CursorIsLastEnd(c, pre);
  }

  /** Start times follow scheduling order. */
  lemma {:induction false} StartsInOrder(c: Time, chunks: seq<Chunk>, i: nat, j: nat)
    requires i <= j < |chunks|
    ensures Starts(c, chunks)[i] <= Starts(c, chunks)[j]
    decreases j - i
  {
    if i < j {
      NoOverlap(c, chunks, j - 1);
      StartsInOrder(c, chunks, i, j - 1);
    }
  }

  /**
   * The three promises of the scheduling rule for chunk k: it never starts before it arrived;
   * when it arrives before the previous chunk has finished it starts exactly at that end (no
   * gap); when it arrives later it starts at once (no rush to catch up).
   */
  lemma StartRule(c: Time, chunks: seq<Chunk>, k: nat)
    requires k < |chunks|
    ensures Starts(c, chunks)[k] >= chunks[k].arrival
    ensures chunks[k].arrival <= CursorAfter(c, chunks[..k]) ==> Starts(c, chunks)[k] == CursorAfter(c, chunks[..k])
    ensures chunks[k].arrival >= CursorAfter(c, chunks[..k]) ==> Starts(c, chunks)[k] == chunks[k].arrival
  {
    StartAt(c, chunks, k);
  }

  // ---------------------------------------------------------------------------------------
  // The scheduler's state and its three operations, as values.
  // ---------------------------------------------------------------------------------------

  /**
   * `cursor` and `sources` are the app's refs; `nextId` hands out fresh source identities;
   * `halted` holds every source whose stop() has been called; `chunks` records every step that
   * moved the cursor since it was last reset (a failed decode as a chunk of length 0) and `ids`
   * the sources started since then, in order.
   */
  datatype PlaybackState = PlaybackState(
    cursor: Time,
    sources: set<SourceId>,
    nextId: SourceId,
    halted: set<SourceId>,
    chunks: seq<Chunk>,
    ids: seq<SourceId>)

  /** State of the refs when the app mounts: cursor 0 and no source. */
  function Initial(): PlaybackState
  {
    PlaybackState(0.0, {}, 0, {}, [], [])
  }

  ghost predicate StateValid(s: PlaybackState)
  {
    && s.cursor == CursorAfter(0.0, s.chunks)
    && (forall i :: 0 <= i < |s.ids| ==> s.ids[i] < s.nextId)
    && (forall i, j :: 0 <= i < j < |s.ids| ==> s.ids[i] != s.ids[j])
    && (forall id :: id in s.sources ==> id in s.ids)
    && (forall id :: id in s.halted ==> id < s.nextId)
    && s.sources !! s.halted
  }

  /** The audio branch of the message handler: start one decoded chunk of `duration` seconds at `now`. */
  function Schedule(s: PlaybackState, now: Time, duration: Time): PlaybackState
  {
    var start := Max(s.cursor, now);
    s.(cursor := start + duration,
       sources := s.sources + {s.nextId},
       nextId := s.nextId + 1,
       chunks := s.chunks + [Chunk(now, duration)],
       ids := s.ids + [s.nextId])
  }

  /**
   * The audio branch when decoding fails: the cursor has already been moved to max(cursor, now),
   * and the exception ends the handler before any source exists.
   */
  function Advance(s: PlaybackState, now: Time): PlaybackState
  {
    s.(cursor := Max(s.cursor, now), chunks := s.chunks + [Chunk(now, 0.0)])
  }

  /** The `onended` callback of source `id`. */
  function Ended(s: PlaybackState, id: SourceId): PlaybackState
  {
    s.(sources := s.sources - {id})
  }

  /** `stopAllAudio`: stop every live source, forget them all and reset the cursor. */
  function StopAll(s: PlaybackState): PlaybackState
  {
    s.(halted := s.halted + s.sources, sources := {}, cursor := 0.0, chunks := [], ids := [])
  }

  lemma InitialValid()
    ensures StateValid(Initial())
  {
  }

  /**
   * Scheduling starts the chunk at max(cursor, now), leaves the cursor at that start plus the
   * duration (so at least `now`), adds exactly one source, not live and never stopped before,
   * records the start as the next entry of the schedule, and keeps the state valid.
   */
  lemma ScheduleFacts(s: PlaybackState, now: Time, duration: Time)
    requires StateValid(s)
    ensures var t := Schedule(s, now, duration);
      && StateValid(t)
      && t.cursor == Max(s.cursor, now) + duration
      && t.cursor >= now
      && t.sources == s.sources + {s.nextId}
      && s.nextId !in s.sources && s.nextId !in s.halted
      && Starts(0.0, t.chunks) == Starts(0.0, s.chunks) + [Max(s.cursor, now)]
      && t.halted == s.halted
  {
    var t := Schedule(s, now, duration);
    assert t.chunks[..|t.chunks| - 1] == s.chunks;
    assert s.nextId !in s.ids;
  }

  /** A source that ends takes itself out of the set and changes nothing else. */
  lemma EndedFacts(s: PlaybackState, id: SourceId)
    requires StateValid(s)
    ensures var t := Ended(s, id);
      && StateValid(t)
      && t.sources == s.sources - {id}
      && t.cursor == s.cursor && t.chunks == s.chunks && t.ids == s.ids
      && t.halted == s.halted && t.nextId == s.nextId
      && (id !in s.sources ==> t == s)
  {
  }

  /**
   * From any state, stopping leaves no live source and the cursor at 0, every source that was
   * live has been stopped, and stopping a second time changes nothing.
   */
  lemma StopAllFacts(s: PlaybackState)
    ensures StopAll(s).sources == {} && StopAll(s).cursor == 0.0
    ensures StopAll(s).halted == s.halted + s.sources
    ensures StopAll(StopAll(s)) == StopAll(s)
    ensures StateValid(s) ==> StateValid(StopAll(s))
  {
    assert StopAll(s).halted + {} == StopAll(s).halted;
  }

  /**
   * A failed decode moves the cursor to max(cursor, now) and nothing else: no source is added,
   * none is stopped, and the schedule gains an empty interval at that point.
   */
  lemma AdvanceFacts(s: PlaybackState, now: Time)
    requires StateValid(s)
    ensures var t := Advance(s, now);
      && StateValid(t)
      && t.cursor == Max(s.cursor, now) && t.cursor >= now
      && t.sources == s.sources && t.halted == s.halted && t.nextId == s.nextId && t.ids == s.ids
      && Starts(0.0, t.chunks) == Starts(0.0, s.chunks) + [Max(s.cursor, now)]
  {
    var t := Advance(s, now);
    assert t.chunks[..|t.chunks| - 1] == s.chunks;
  }

  /**
   * After a stop, playback resumes at once: the next chunk starts at its own arrival, whatever
   * backlog the old cursor held, and it is then the only live source.
   */
  lemma ResumesAtOnceAfterStop(s: PlaybackState, now: Time, duration: Time)
    ensures var t := Schedule(StopAll(s), now, duration);
      && Starts(0.0, t.chunks) == [now]
      && t.cursor == now + duration
      && t.sources == {s.nextId}
  {
    var u := StopAll(s);
    assert u.chunks == [] && u.cursor == 0.0 && u.sources == {};
    var t := Schedule(u, now, duration);
    assert t.chunks[..0] == [];
    StartAt(0.0, t.chunks, 0);
  }

  // ---------------------------------------------------------------------------------------
  // The refs themselves, updated in place.
  // ---------------------------------------------------------------------------------------

  class Scheduler {
    var cursor: Time
    var sources: set<SourceId>
    var nextId: SourceId
    var halted: set<SourceId>
    ghost var chunks: seq<Chunk>
    ghost var ids: seq<SourceId>

    ghost function State(): PlaybackState
      reads this
    {
      PlaybackState(cursor, sources, nextId, halted, chunks, ids)
    }

    ghost predicate Valid()
      reads this
    {
      StateValid(State())
    }

    constructor ()
      ensures Valid() && State() == Initial()
    {
      cursor, sources, nextId, halted := 0.0, {}, 0, {};
      chunks, ids := [], [];
    }

    /** Start a decoded chunk that arrives when the audio clock reads `now`. */
    method ScheduleChunk(now: Time, duration: Time) returns (id: SourceId, start: Time)
      requires Valid()
      modifies this
      ensures Valid() && State() == Schedule(old(State()), now, duration)
      ensures id == old(nextId) && id in sources && id !in old(sources)
      ensures start == Max(old(cursor), now) && cursor == start + duration
      ensures Starts(0.0, chunks) == Starts(0.0, old(chunks)) + [start]
    {
      ghost var next := Schedule(State(), now, duration);
      ScheduleFacts(State(), now, duration);
      cursor := Max(cursor, now);
      id := nextId;
      nextId := nextId + 1;
      sources := sources + {id};
      start := cursor;
      cursor := cursor + duration;
      chunks := chunks + [Chunk(now, duration)];
      ids := ids + [id];
      assert State() == next;
    }

    /** Line 256 alone, when the decode that follows it fails: the cursor moves to max(cursor, now). */
    method AdvanceTo(now: Time)
      requires Valid()
      modifies this
      ensures Valid() && State() == Advance(old(State()), now)
      ensures cursor == Max(old(cursor), now) && sources == old(sources)
    {
      AdvanceFacts(State(), now);
      cursor := Max(cursor, now);
      chunks := chunks + [Chunk(now, 0.0)];
    }

    /** The `onended` callback: the source deletes itself from the set. */
    method OnEnded(id: SourceId)
      requires Valid()
      modifies this
      ensures Valid() && State() == Ended(old(State()), id)
    {
      EndedFacts(State(), id);
      sources := sources - {id};
    }

    /** `stopAllAudio`: stop each live source in turn, then clear the set and reset the cursor. */
    method StopAllAudio()
      requires Valid()
      modifies this
      ensures Valid() && State() == StopAll(old(State()))
    {
      var pending := sources;
      while pending != {}
        invariant pending <= old(sources)
        invariant halted == old(halted) + (old(sources) - pending)
        invariant sources == old(sources) && cursor == old(cursor) && nextId == old(nextId)
        invariant chunks == old(chunks) && ids == old(ids)
        decreases pending
      {
        var src :| src in pending;
        halted := halted + {src};
        pending := pending - {src};
      }
      assert halted == old(halted) + old(sources);
      sources := {};
      cursor := 0.0;
      chunks, ids := [], [];
    }
  }
}
