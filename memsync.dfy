/** The Mem pipeline (batch mode): every new lifelog goes into one markdown
    note sent in a single POST, and the watermark moves to the first (newest)
    lifelog only when that POST is answered with status 200. */
module MemSync {
  import opened Common
  import opened Watermarks
  import opened IdFilter
  import Client

  /** Default lookback of this pipeline's watermark: one hour, in seconds. */
  const Lookback: nat := 3600

  const Required := ["LIMITLESS_API_KEY", "MEM_API_KEY"]
  const Rule := "\n\n---\n\n"

  // ----- the incremental filter -------------------------------------------

  /** Kept by the time cutoff: no `endTime` (or an empty one), one that does
      not parse, or one at or after `cutoff`. `instant` maps each ISO time
      that `datetime.fromisoformat` accepts (after "Z" is replaced with
      "+00:00") to its instant in seconds; a time not in it does not parse. */
  predicate Recent(x: Lifelog, cutoff: int, instant: map<string, int>)
  {
    || !Truthy(x.endTime)
    || x.endTime.value !in instant
    || instant[x.endTime.value] >= cutoff
  }

  /** The lifelogs of `batch` kept by the time cutoff, in order. */
  function RecentOnly(batch: seq<Lifelog>, cutoff: int, instant: map<string, int>): seq<Lifelog>
  {
    if batch == [] then []
    else RecentOnly(Init(batch), cutoff, instant) + (if Recent(Last(batch), cutoff, instant) then [Last(batch)] else [])
  }

  /** A lifelog survives the cutoff exactly when it is in the batch and recent. */
  lemma {:induction false} RecentOnlyMembers(batch: seq<Lifelog>, cutoff: int, instant: map<string, int>)
    ensures forall x :: x in RecentOnly(batch, cutoff, instant) <==> x in batch && Recent(x, cutoff, instant)
  {
    if batch != [] {
      RecentOnlyMembers(Init(batch), cutoff, instant);
      assert batch == Init(batch) + [Last(batch)];
    }
  }

  /** The time cutoff keeps the batch's order and drops only whole lifelogs. */
  lemma {:induction false} RecentOnlyIsSubsequence(batch: seq<Lifelog>, cutoff: int, instant: map<string, int>)
    ensures IsSubsequence(RecentOnly(batch, cutoff, instant), batch)
    decreases |batch|
  {
    if batch != [] {
      var r := RecentOnly(batch, cutoff, instant);
      RecentOnlyIsSubsequence(Init(batch), cutoff, instant);
      if Recent(Last(batch), cutoff, instant) {
        assert Last(r) == Last(batch) && Init(r) == RecentOnly(Init(batch), cutoff, instant);
      } else {
        assert r == RecentOnly(Init(batch), cutoff, instant);
      }
    }
  }

  /** The filter of `get_recent_conversations`. With a stored id: the lifelogs
      before that id. Without: the lifelogs kept by a cutoff one hour before
      `now`; the stored timestamp is not an input. */
  method SelectNew(batch: seq<Lifelog>, lastId: string, now: int, instant: map<string, int>)
    returns (kept: seq<Lifelog>)
    ensures lastId != "" ==> kept == PrefixBefore(batch, lastId)
    ensures lastId == "" ==> kept == RecentOnly(batch, now - Lookback, instant)
    ensures IsSubsequence(kept, batch)
  {
    if lastId != "" {
      kept := TakeBeforeId(batch, lastId);
      return;
    }
    var oneHourAgo := now - Lookback;
    kept := [];
    for i := 0 to |batch|
      invariant kept == RecentOnly(batch[..i], oneHourAgo, instant)
    {
      var log := batch[i];
      assert batch[..i + 1] == batch[..i] + [log];
      if Truthy(log.endTime) {
        if log.endTime.value in instant {
          if instant[log.endTime.value] >= oneHourAgo {
            kept := kept + [log];
          }
        } else {
          kept := kept + [log];  // an unparseable time keeps the lifelog
        }
      } else {
        kept := kept + [log];    // so does a missing one
      }
    }
    assert batch[..|batch|] == batch;
    RecentOnlyIsSubsequence(batch, oneHourAgo, instant);
  }

  // ----- the note ---------------------------------------------------------

  function Header(hour: string): string
  {
    "# Limitless Conversations: " + hour + "\n\n"
  }

  /** The time line of a section: present only when both times are set.
      `clock` maps each ISO time that parses to its `%H:%M` form; when either
      time does not parse, both are shown as they are. */
  function TimeLine(x: Lifelog, clock: map<string, string>): string
  {
    if Truthy(x.startTime) && Truthy(x.endTime) then
      var (start, end) := (x.startTime.value, x.endTime.value);
      if start in clock && end in clock then "*Time: " + clock[start] + " - " + clock[end] + "*\n\n"
      else "*Start: " + start + "*\n*End: " + end + "*\n\n"
    else ""
  }

  function Section(x: Lifelog, clock: map<string, string>): string
  {
    "## " + GetOr(x.title, Untitled) + "\n\n" + TimeLine(x, clock) + GetOr(x.markdown, "") + Rule
  }

  /** The sections of `logs`, one per lifelog and in the same order. */
  function SectionList(logs: seq<Lifelog>, clock: map<string, string>): (parts: seq<string>)
    ensures |parts| == |logs|
    ensures forall i :: 0 <= i < |logs| ==> parts[i] == Section(logs[i], clock)
  {
    seq(|logs|, i requires 0 <= i < |logs| => Section(logs[i], clock))
  }

  function Sections(logs: seq<Lifelog>, clock: map<string, string>): string
  {
    Concat(SectionList(logs, clock))
  }

  function NoteBody(hour: string, logs: seq<Lifelog>, clock: map<string, string>): string
  {
    Header(hour) + Sections(logs, clock)
  }

  /** A section opens with its title heading, closes with the rule, and has
      a time line exactly when both times are set. */
  lemma SectionShape(x: Lifelog, clock: map<string, string>)
    ensures "## " + GetOr(x.title, Untitled) + "\n\n" <= Section(x, clock)
    ensures |Section(x, clock)| >= |Rule| && Section(x, clock)[|Section(x, clock)| - |Rule|..] == Rule
    ensures TimeLine(x, clock) != "" <==> Truthy(x.startTime) && Truthy(x.endTime)
  {
    var head := "## " + GetOr(x.title, Untitled) + "\n\n";
    var rest := TimeLine(x, clock) + GetOr(x.markdown, "");
    assert Section(x, clock) == head + (rest + Rule);
    assert Section(x, clock) == (head + rest) + Rule;
  }

  lemma SectionsAppend(a: seq<Lifelog>, b: seq<Lifelog>, clock: map<string, string>)
    ensures Sections(a + b, clock) == Sections(a, clock) + Sections(b, clock)
  {
    assert SectionList(a + b, clock) == SectionList(a, clock) + SectionList(b, clock);
    ConcatAppend(SectionList(a, clock), SectionList(b, clock));
  }

  lemma SectionSingle(x: Lifelog, clock: map<string, string>)
    ensures Sections([x], clock) == Section(x, clock)
  {
    var parts := SectionList([x], clock);
    assert parts == [Section(x, clock)];
    ConcatSingle(Section(x, clock));
  }

  /** The note lists the lifelogs in order: it splits into the header, the
      sections of the lifelogs before `logs[i]`, the section of `logs[i]`, and
      the sections of the lifelogs after it. */
  lemma SectionAt(hour: string, logs: seq<Lifelog>, clock: map<string, string>, i: nat)
    requires i < |logs|
    ensures NoteBody(hour, logs, clock)
         == Header(hour) + Sections(logs[..i], clock) + Section(logs[i], clock) + Sections(logs[i + 1..], clock)
  {
    assert logs == (logs[..i] + [logs[i]]) + logs[i + 1..];
    SectionsAppend(logs[..i] + [logs[i]], logs[i + 1..], clock);
    SectionsSnoc(logs[..i], logs[i], clock);
    var h, before, here, after := Header(hour), Sections(logs[..i], clock), Section(logs[i], clock), Sections(logs[i + 1..], clock);
    ConcatAssoc(h, before + here, after);
    ConcatAssoc(h, before, here);
  }

  /** One more section at the end. */
  lemma SectionsSnoc(a: seq<Lifelog>, x: Lifelog, clock: map<string, string>)
    ensures Sections(a + [x], clock) == Sections(a, clock) + Section(x, clock)
  {
    SectionsAppend(a, [x], clock);
    SectionSingle(x, clock);
  }

  lemma NoteStep(hour: string, logs: seq<Lifelog>, clock: map<string, string>, i: nat)
    requires i < |logs|
    ensures Header(hour) + Sections(logs[..i + 1], clock) == Header(hour) + Sections(logs[..i], clock) + Section(logs[i], clock)
  {
    assert logs[..i + 1] == logs[..i] + [logs[i]];
    SectionsSnoc(logs[..i], logs[i], clock);
  }

  /** The markdown `create_mem_note` accumulates, section by section. */
  method BuildNote(hour: string, logs: seq<Lifelog>, clock: map<string, string>) returns (content: string)
    ensures content == NoteBody(hour, logs, clock)
  {
    content := Header(hour);
    for i := 0 to |logs|
      invariant content == Header(hour) + Sections(logs[..i], clock)
    {
      NoteStep(hour, logs, clock, i);
      content := content + Section(logs[i], clock);
    }
    assert logs[..|logs|] == logs;
  }

  // ----- dispatch ---------------------------------------------------------

  /** Mem accepted the note: status 200 with a body that is a JSON object.
      Parsing the body and reading its `url` key are inside the same `try`
      as the save, so a body that is not JSON, or JSON without keys (such
      as an array), raises and skips the save. */
  predicate Accepted(reply: PostReply)
  {
    reply == Answer(200, JsonObject)
  }

  /** The watermark after delivering `logs`: the first lifelog's id (or "")
      and its `endTime`, or the clock when it has no `endTime` key. */
  function AdvanceTo(logs: seq<Lifelog>, now: int): Watermark
    requires logs != []
  {
    Watermark(GetOr(logs[0].id, ""), match logs[0].endTime case Some(t) => Text(t) case None => Instant(now))
  }

  /** `create_mem_note`. Nothing is sent when there are no lifelogs or no
      Mem key; the note is one POST; the watermark moves only on acceptance. */
  method CreateMemNote(store: WatermarkStore, logs: seq<Lifelog>, hour: string, memKey: Option<string>,
                       reply: PostReply, now: int, clock: map<string, string>)
    returns (note: Option<string>)
    modifies store`file
    ensures note == if logs == [] || !Truthy(memKey) then None else Some(NoteBody(hour, logs, clock))
    ensures store.file == if note.Some? && Accepted(reply) then Stored(AdvanceTo(logs, now)) else old(store.file)
  {
    if logs == [] {
      return None;
    }
    var content := BuildNote(hour, logs, clock);
    if !Truthy(memKey) {
      return None;
    }
    note := Some(content);
    if Accepted(reply) {
      var w := AdvanceTo(logs, now);
      store.SaveLastProcessed(w.lastId, w.lastTimestamp);
    }
  }

  // ----- one pass ---------------------------------------------------------

  /** `get_recent_conversations`: read the watermark, fetch today (or
      yesterday when today is empty), keep what is new. `fetched` is what the
      client returned, `res` what survives the filter; `first` records
      today's fetch. */
  method GetRecentConversations(store: WatermarkStore, script: seq<Client.Reply>, now: int,
                                today: string, yesterday: string, localZone: string,
                                instant: map<string, int>)
    returns (res: Client.FetchResult, fetched: Client.FetchResult, sent: seq<Client.Request>, sleeps: nat,
             ghost first: Client.DayFetch)
    requires store.lookback == Lookback
    modifies store`file
    ensures store.file == if old(store.file).Missing? then Stored(Default(Lookback, now)) else old(store.file)
    ensures Client.RecentOutcome(script, today, yesterday, localZone, sent, sleeps, fetched, first)
    ensures res.Failed? <==> fetched.Failed?
    ensures res.Failed? ==> res == fetched
    ensures res.Fetched? ==>
      var w := ReadMark(old(store.file), Lookback, now);
      && (w.lastId != "" ==> res.lifelogs == PrefixBefore(fetched.lifelogs, w.lastId))
      && (w.lastId == "" ==> res.lifelogs == RecentOnly(fetched.lifelogs, now - Lookback, instant))
  {
    var w := store.GetLastProcessed(now);
    var dates;
    fetched, dates, sent, sleeps, first := Client.FetchRecent(script, today, yesterday, localZone);
    if fetched.Failed? {
      return fetched, fetched, sent, sleeps, first;
    }
    var kept := SelectNew(fetched.lifelogs, w.lastId, now, instant);
    res := Client.Fetched(kept);
  }

  datatype PassOutcome =
    | MissingConfig(names: seq<string>)
    | FetchFailed(error: Client.FetchError)
    | Ran(delivered: seq<Lifelog>, note: Option<string>)

  /** `main`: check the environment, then fetch, filter and deliver.
      `fetched` and `first` are the client's result and today's fetch. */
  method SyncPass(env: map<string, string>, store: WatermarkStore, script: seq<Client.Reply>,
                  reply: PostReply, now: int, today: string, yesterday: string, hour: string,
                  localZone: string, instant: map<string, int>, clock: map<string, string>)
    returns (outcome: PassOutcome, sent: seq<Client.Request>, sleeps: nat,
             ghost fetched: Client.FetchResult, ghost first: Client.DayFetch)
    requires store.lookback == Lookback
    modifies store`file
    ensures MissingVars(env, Required) != [] <==> outcome.MissingConfig?
    ensures outcome.MissingConfig? ==>
      outcome.names == MissingVars(env, Required) && sent == [] && sleeps == 0 && store.file == old(store.file)
    // otherwise the pipelines' fetch ran on the script
    ensures !outcome.MissingConfig? ==>
      && Client.RecentOutcome(script, today, yesterday, localZone, sent, sleeps, fetched, first)
      && (outcome.FetchFailed? <==> fetched.Failed?)
    ensures outcome.FetchFailed? ==>
      && outcome.error == fetched.error
      && store.file == if old(store.file).Missing? then Stored(Default(Lookback, now)) else old(store.file)
    // what is delivered is exactly what the filter keeps of the fetch
    ensures outcome.Ran? ==>
      var w := ReadMark(old(store.file), Lookback, now);
      && fetched.Fetched?
      && (w.lastId != "" ==> outcome.delivered == PrefixBefore(fetched.lifelogs, w.lastId))
      && (w.lastId == "" ==> outcome.delivered == RecentOnly(fetched.lifelogs, now - Lookback, instant))
    ensures outcome.Ran? ==> outcome.note == if outcome.delivered == [] then None else Some(NoteBody(hour, outcome.delivered, clock))
    ensures outcome.Ran? && outcome.note.Some? && Accepted(reply) ==>
      store.file == Stored(AdvanceTo(outcome.delivered, now))
    ensures outcome.Ran? && !(outcome.note.Some? && Accepted(reply)) ==>
      store.file == if old(store.file).Missing? then Stored(Default(Lookback, now)) else old(store.file)
  {
    var missing := MissingVars(env, Required);
    if missing != [] {
      return MissingConfig(missing), [], 0, Client.Failed(Client.RequestExhausted), Client.DayFetch(0, 0, Client.Fetched([]));
    }
    var res;
    res, fetched, sent, sleeps, first := GetRecentConversations(store, script, now, today, yesterday, localZone, instant);
    if res.Failed? {
      return FetchFailed(res.error), sent, sleeps, fetched, first;
    }
    var note := CreateMemNote(store, res.lifelogs, hour, Getenv(env, "MEM_API_KEY"), reply, now, clock);
    outcome := Ran(res.lifelogs, note);
  }
}
