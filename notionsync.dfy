/** The Notion pipeline (per-record mode): every new lifelog becomes one page
    in a Notion database, created by its own POST, and the watermark is
    rewritten after each page Notion accepts. */
module NotionSync {
  import opened Common
  import opened Watermarks
  import opened IdFilter
  import Client

  /** Default lookback of this pipeline's watermark: seven days, in seconds. */
  const Lookback: nat := 7 * 24 * 3600

  const Required := ["LIMITLESS_API_KEY", "NOTION_API_KEY", "NOTION_DATABASE_ID"]

  /** Longest text Notion takes in one rich-text block. */
  const ContentCap := 2000

  // ----- formatting -------------------------------------------------------

  /** One formatted entry; absent keys are already replaced by defaults. */
  datatype Entry = Entry(id: string, title: string, content: string, startTime: string, endTime: string)

  function ToEntry(x: Lifelog): Entry
  {
    Entry(GetOr(x.id, ""), GetOr(x.title, Untitled), GetOr(x.markdown, ""),
          GetOr(x.startTime, ""), GetOr(x.endTime, ""))
  }

  /** A formatted entry carries each field of the lifelog when present; a
      missing title becomes "Untitled conversation" and any other missing
      field the empty string. */
  lemma ToEntryFields(x: Lifelog)
    ensures ToEntry(x).id == (if x.id.Some? then x.id.value else "")
    ensures ToEntry(x).title == (if x.title.Some? then x.title.value else Untitled)
    ensures ToEntry(x).content == (if x.markdown.Some? then x.markdown.value else "")
    ensures ToEntry(x).startTime == (if x.startTime.Some? then x.startTime.value else "")
    ensures ToEntry(x).endTime == (if x.endTime.Some? then x.endTime.value else "")
  {
  }

  /** `format_for_notion`: one entry per lifelog, in order. */
  method FormatForNotion(logs: seq<Lifelog>) returns (entries: seq<Entry>)
    ensures |entries| == |logs|
    ensures forall i :: 0 <= i < |logs| ==> entries[i] == ToEntry(logs[i])
  {
    entries := [];
    for i := 0 to |logs|
      invariant |entries| == i
      invariant forall j :: 0 <= j < i ==> entries[j] == ToEntry(logs[j])
    {
      entries := entries + [ToEntry(logs[i])];
    }
  }

  /** The content sent for an entry: the first 2000 characters. */
  function CapContent(s: string): (r: string)
    ensures r <= s
    ensures |r| <= ContentCap
    ensures |s| <= ContentCap ==> r == s
    ensures |s| > ContentCap ==> |r| == ContentCap
  {
    if |s| > ContentCap then s[..ContentCap] else s
  }

  /** The page one POST asks Notion to create. */
  datatype Payload = Payload(databaseId: string, name: string, content: string,
                             startTime: string, endTime: string, source: string)

  function PayloadFor(e: Entry, databaseId: string): Payload
  {
    Payload(databaseId, e.title, CapContent(e.content), e.startTime, e.endTime, "Limitless")
  }

  // ----- dispatch ---------------------------------------------------------

  /** Notion created the page. */
  predicate Accepted(r: PostReply)
  {
    r.Answer? && r.status == 200
  }

  /** The reply ends the run with an exception: the POST raised, or it failed
      and printing its body as JSON raised. */
  predicate Aborts(r: PostReply)
  {
    r.PostRaised? || (r.status != 200 && r.body.NotJson?)
  }

  lemma AcceptedNeverAborts(r: PostReply)
    ensures Accepted(r) ==> !Aborts(r)
  {
  }

  /** The reply to the POST of entry `i`; past the script the request raises. */
  function PostReplyAt(replies: seq<PostReply>, i: nat): PostReply
  {
    if i < |replies| then replies[i] else PostRaised
  }

  /** The first of the first `n` replies that aborts the run, or `n`. */
  function AbortIndex(replies: seq<PostReply>, n: nat): (k: nat)
    ensures k <= n
    ensures forall j :: 0 <= j < k ==> !Aborts(PostReplyAt(replies, j))
    ensures k < n ==> Aborts(PostReplyAt(replies, k))
  {
    if n == 0 then 0
    else if AbortIndex(replies, n - 1) < n - 1 then AbortIndex(replies, n - 1)
    else if Aborts(PostReplyAt(replies, n - 1)) then n - 1
    else n
  }

  /** How many POSTs a run over `n` entries makes: all of them, or up to and
      including the one that aborts. */
  function Attempted(replies: seq<PostReply>, n: nat): (m: nat)
    ensures m <= n
  {
    if AbortIndex(replies, n) < n then AbortIndex(replies, n) + 1 else n
  }

  /** The last accepted among the first `n` replies, in list order. */
  function LastAccepted(replies: seq<PostReply>, n: nat): (r: Option<nat>)
    ensures r.Some? ==> r.value < n && Accepted(PostReplyAt(replies, r.value))
    ensures r.Some? ==> forall j :: r.value < j < n ==> !Accepted(PostReplyAt(replies, j))
    ensures r.None? ==> forall j :: 0 <= j < n ==> !Accepted(PostReplyAt(replies, j))
  {
    if n == 0 then None
    else if Accepted(PostReplyAt(replies, n - 1)) then Some(n - 1)
    else LastAccepted(replies, n - 1)
  }

  function MarkOf(e: Entry): Watermark
  {
    Watermark(e.id, Text(e.endTime))
  }

  /** The watermark file after the first `n` replies: the last accepted
      entry's id and end time, or the file as it was. */
  function FileAfter(entries: seq<Entry>, replies: seq<PostReply>, n: nat, initial: FileState): FileState
    requires n <= |entries|
  {
    match LastAccepted(replies, n)
    case Some(k) => Stored(MarkOf(entries[k]))
    case None => initial
  }

  /** `send_to_notion`: one POST per entry, in order. A failed POST is skipped
      unless it aborts the run; each accepted entry overwrites the watermark. */
  method SendToNotion(store: WatermarkStore, entries: seq<Entry>, replies: seq<PostReply>, databaseId: string)
    returns (posted: seq<Payload>, aborted: bool)
    modifies store`file
    ensures |posted| == Attempted(replies, |entries|)
    ensures forall i :: 0 <= i < |posted| ==> posted[i] == PayloadFor(entries[i], databaseId)
    ensures aborted <==> AbortIndex(replies, |entries|) < |entries|
    ensures store.file == FileAfter(entries, replies, |posted|, old(store.file))
  {
    posted, aborted := [], false;
    var i := 0;
    while i < |entries|
      invariant i <= |entries| && |posted| == i
      invariant forall j :: 0 <= j < i ==> posted[j] == PayloadFor(entries[j], databaseId)
      invariant AbortIndex(replies, i) == i
      invariant store.file == FileAfter(entries, replies, i, old(store.file))
      invariant !aborted
    {
      posted := posted + [PayloadFor(entries[i], databaseId)];
      var reply := PostReplyAt(replies, i);
      if Aborts(reply) {
        aborted := true;
        break;
      }
      if reply.status == 200 {
        store.SaveLastProcessed(entries[i].id, Text(entries[i].endTime));
      }
      i := i + 1;
    }
    if aborted {
      assert AbortIndex(replies, |entries|) == i by { AbortIndexStable(replies, i, |entries|); }
      assert LastAccepted(replies, i + 1) == LastAccepted(replies, i);
    }
  }

  /** Once an abort is found, more replies do not move it. */
  lemma {:induction false} AbortIndexStable(replies: seq<PostReply>, k: nat, n: nat)
    requires k < n
    requires AbortIndex(replies, k) == k && Aborts(PostReplyAt(replies, k))
    ensures AbortIndex(replies, n) == k
    decreases n
  {
    if n > k + 1 {
      AbortIndexStable(replies, k, n - 1);
    }
  }

  /** A run without aborts leaves the watermark on the last entry Notion
      accepted; when it accepted the last entry, on that one. */
  lemma LastAcceptedWins(entries: seq<Entry>, replies: seq<PostReply>, initial: FileState)
    requires entries != [] && Accepted(PostReplyAt(replies, |entries| - 1))
    ensures FileAfter(entries, replies, |entries|, initial) == Stored(MarkOf(Last(entries)))
  {
  }

  /** A run in which Notion accepts nothing leaves the file as it was. */
  lemma NothingAcceptedKeepsFile(entries: seq<Entry>, replies: seq<PostReply>, n: nat, initial: FileState)
    requires n <= |entries|
    requires forall j :: 0 <= j < n ==> !Accepted(PostReplyAt(replies, j))
    ensures FileAfter(entries, replies, n, initial) == initial
  {
  }

  // ----- one pass ---------------------------------------------------------

  /** The filter of `get_recent_conversations`: with a stored id, the
      lifelogs before it; without, everything fetched. */
  method FilterNew(batch: seq<Lifelog>, lastId: string) returns (kept: seq<Lifelog>)
    ensures lastId != "" ==> kept == PrefixBefore(batch, lastId)
    ensures lastId == "" ==> kept == batch
    ensures IsSubsequence(kept, batch)
  {
    if lastId != "" {
      kept := TakeBeforeId(batch, lastId);
    } else {
      kept := batch;
      PrefixIsSubsequence(batch, batch);
    }
  }

  /** What the filter keeps of `batch` under the stored id `lastId`. */
  function NewSince(batch: seq<Lifelog>, lastId: string): seq<Lifelog>
  {
    if lastId != "" then PrefixBefore(batch, lastId) else batch
  }

  /** `get_recent_conversations`: read the watermark, fetch today (or
      yesterday when today is empty), keep what is new. `fetched` is what the
      client returned, `res` what survives the filter; `first` records
      today's fetch. */
  method GetRecentConversations(store: WatermarkStore, script: seq<Client.Reply>, now: int,
                                today: string, yesterday: string, localZone: string)
    returns (res: Client.FetchResult, fetched: Client.FetchResult, sent: seq<Client.Request>, sleeps: nat,
             ghost first: Client.DayFetch)
    requires store.lookback == Lookback
    modifies store`file
    ensures store.file == if old(store.file).Missing? then Stored(Default(Lookback, now)) else old(store.file)
    ensures Client.RecentOutcome(script, today, yesterday, localZone, sent, sleeps, fetched, first)
    ensures res.Failed? <==> fetched.Failed?
    ensures res.Failed? ==> res == fetched
    ensures res.Fetched? ==> res.lifelogs == NewSince(fetched.lifelogs, ReadMark(old(store.file), Lookback, now).lastId)
  {
    var w := store.GetLastProcessed(now);
    var dates;
    fetched, dates, sent, sleeps, first := Client.FetchRecent(script, today, yesterday, localZone);
    if fetched.Failed? {
      return fetched, fetched, sent, sleeps, first;
    }
    var kept := FilterNew(fetched.lifelogs, w.lastId);
    res := Client.Fetched(kept);
  }

  datatype PassOutcome =
    | MissingConfig(names: seq<string>)
    | FetchFailed(error: Client.FetchError)
    | NothingNew
    | Sent(entries: seq<Entry>, posted: seq<Payload>, aborted: bool)

  /** The end of `main`: stop when nothing is new, otherwise format the new
      lifelogs and send them to the database `databaseId`. */
  method Deliver(store: WatermarkStore, kept: seq<Lifelog>, replies: seq<PostReply>, databaseId: string)
    returns (outcome: PassOutcome)
    modifies store`file
    ensures outcome.NothingNew? || outcome.Sent?
    ensures outcome.NothingNew? <==> kept == []
    ensures outcome.NothingNew? ==> store.file == old(store.file)
    ensures outcome.Sent? ==>
      && |outcome.entries| == |kept|
      && (forall i :: 0 <= i < |kept| ==> outcome.entries[i] == ToEntry(kept[i]))
      && |outcome.posted| == Attempted(replies, |outcome.entries|)
      && (forall i :: 0 <= i < |outcome.posted| ==> outcome.posted[i] == PayloadFor(outcome.entries[i], databaseId))
      && (outcome.aborted <==> AbortIndex(replies, |outcome.entries|) < |outcome.entries|)
      && store.file == FileAfter(outcome.entries, replies, |outcome.posted|, old(store.file))
  {
    if kept == [] {
      return NothingNew;
    }
    var entries := FormatForNotion(kept);
    var posted, aborted := SendToNotion(store, entries, replies, databaseId);
    outcome := Sent(entries, posted, aborted);
  }

  /** `main` once the environment is complete: fetch and filter, stop when
      nothing is new, otherwise format and send to `databaseId`. `fetched`
      and `first` are the client's result and today's fetch. */
  method RunPass(store: WatermarkStore, script: seq<Client.Reply>, replies: seq<PostReply>, now: int,
                 today: string, yesterday: string, localZone: string, databaseId: string)
    returns (outcome: PassOutcome, sent: seq<Client.Request>, sleeps: nat,
             ghost fetched: Client.FetchResult, ghost first: Client.DayFetch)
    requires store.lookback == Lookback
    modifies store`file
    ensures Client.RecentOutcome(script, today, yesterday, localZone, sent, sleeps, fetched, first)
    ensures !outcome.MissingConfig?
    ensures outcome.FetchFailed? <==> fetched.Failed?
    ensures outcome.FetchFailed? ==> outcome.error == fetched.error
    ensures outcome.NothingNew? <==> fetched.Fetched? && NewSince(fetched.lifelogs, ReadMark(old(store.file), Lookback, now).lastId) == []
    ensures outcome.FetchFailed? || outcome.NothingNew? ==>
      store.file == if old(store.file).Missing? then Stored(Default(Lookback, now)) else old(store.file)
    // otherwise one entry per new lifelog, in order, and one POST per entry
    ensures outcome.Sent? ==> fetched.Fetched?
    ensures outcome.Sent? && fetched.Fetched? ==>
      var kept := NewSince(fetched.lifelogs, ReadMark(old(store.file), Lookback, now).lastId);
      && |outcome.entries| == |kept| > 0
      && (forall i :: 0 <= i < |kept| ==> outcome.entries[i] == ToEntry(kept[i]))
      && |outcome.posted| == Attempted(replies, |outcome.entries|)
      && (forall i :: 0 <= i < |outcome.posted| ==> outcome.posted[i] == PayloadFor(outcome.entries[i], databaseId))
      && (outcome.aborted <==> AbortIndex(replies, |outcome.entries|) < |outcome.entries|)
      && store.file == FileAfter(outcome.entries, replies, |outcome.posted|,
                                 if old(store.file).Missing? then Stored(Default(Lookback, now)) else old(store.file))
  {
    var res;
    res, fetched, sent, sleeps, first := GetRecentConversations(store, script, now, today, yesterday, localZone);
    if res.Failed? {
      outcome := FetchFailed(res.error);
    } else {
      outcome := Deliver(store, res.lifelogs, replies, databaseId);
    }
  }

  /** A complete environment names the database. */
  lemma DatabaseIdSet(env: map<string, string>)
    requires MissingVars(env, Required) == []
    ensures Getenv(env, "NOTION_DATABASE_ID").Some?
  {
    assert Required[2] == "NOTION_DATABASE_ID";
  }

  /** `main`: check the environment, then run the pass with the database id
      it names. */
  method SyncPass(env: map<string, string>, store: WatermarkStore, script: seq<Client.Reply>,
                  replies: seq<PostReply>, now: int, today: string, yesterday: string, localZone: string)
    returns (outcome: PassOutcome, sent: seq<Client.Request>, sleeps: nat,
             ghost fetched: Client.FetchResult, ghost first: Client.DayFetch)
    requires store.lookback == Lookback
    modifies store`file
    ensures MissingVars(env, Required) != [] <==> outcome.MissingConfig?
    ensures outcome.MissingConfig? ==>
      outcome.names == MissingVars(env, Required) && sent == [] && sleeps == 0 && store.file == old(store.file)
    ensures !outcome.MissingConfig? ==>
      && Getenv(env, "NOTION_DATABASE_ID").Some?
      && Client.RecentOutcome(script, today, yesterday, localZone, sent, sleeps, fetched, first)
      && (outcome.FetchFailed? <==> fetched.Failed?)
      && (outcome.NothingNew? <==> fetched.Fetched? && NewSince(fetched.lifelogs, ReadMark(old(store.file), Lookback, now).lastId) == [])
    ensures outcome.FetchFailed? ==> outcome.error == fetched.error
    ensures outcome.FetchFailed? || outcome.NothingNew? ==>
      store.file == if old(store.file).Missing? then Stored(Default(Lookback, now)) else old(store.file)
    ensures outcome.Sent? ==> fetched.Fetched?
    ensures outcome.Sent? && fetched.Fetched? ==>
      var kept := NewSince(fetched.lifelogs, ReadMark(old(store.file), Lookback, now).lastId);
      && |outcome.entries| == |kept| > 0
      && (forall i :: 0 <= i < |kept| ==> outcome.entries[i] == ToEntry(kept[i]))
      && |outcome.posted| == Attempted(replies, |outcome.entries|)
      && (forall i :: 0 <= i < |outcome.posted| ==>
            outcome.posted[i] == PayloadFor(outcome.entries[i], GetOr(Getenv(env, "NOTION_DATABASE_ID"), "")))
      && (outcome.aborted <==> AbortIndex(replies, |outcome.entries|) < |outcome.entries|)
      && store.file == FileAfter(outcome.entries, replies, |outcome.posted|,
                                 if old(store.file).Missing? then Stored(Default(Lookback, now)) else old(store.file))
  {
    var missing := MissingVars(env, Required);
    if missing != [] {
      return MissingConfig(missing), [], 0, Client.Failed(Client.RequestExhausted), Client.DayFetch(0, 0, Client.Fetched([]));
    }
    DatabaseIdSet(env);
    outcome, sent, sleeps, fetched, first := RunPass(store, script, replies, now, today, yesterday, localZone,
                                                     Getenv(env, "NOTION_DATABASE_ID").value);
  }

  // ----- the watermark after a newest-first batch ---------------------------

  /** Every lifelog of the batch has a non-empty id, and no two share one. */
  predicate DistinctIds(batch: seq<Lifelog>)
  {
    && (forall i :: 0 <= i < |batch| ==> Truthy(batch[i].id))
    && (forall i, j :: 0 <= i < j < |batch| ==> batch[i].id != batch[j].id)
  }

  lemma FilterAtEntry(batch: seq<Lifelog>, p: nat)
    requires DistinctIds(batch) && p < |batch|
    ensures PrefixBefore(batch, ToEntry(batch[p]).id) == batch[..p]
  {
    var id := ToEntry(batch[p]).id;
    assert batch[p].id == Some(id);
    forall j | 0 <= j < |batch| && j != p
      ensures batch[j].id != Some(id)
    {
      if j < p {
        assert batch[j].id != batch[p].id;
      } else {
        assert batch[p].id != batch[j].id;
      }
    }
    PrefixBeforeUnique(batch, p, id);
  }

  /** As written: when Notion accepts every entry of a newest-first batch,
      the watermark ends on the OLDEST entry, and the next pass over the same
      batch sends every other entry again. */
  lemma AsWrittenResendsAccepted(batch: seq<Lifelog>, replies: seq<PostReply>, initial: FileState)
    requires DistinctIds(batch) && batch != []
    requires forall j :: 0 <= j < |batch| ==> Accepted(PostReplyAt(replies, j))
    ensures var entries := seq(|batch|, i requires 0 <= i < |batch| => ToEntry(batch[i]));
      && Attempted(replies, |entries|) == |entries|
      && FileAfter(entries, replies, |entries|, initial) == Stored(MarkOf(ToEntry(Last(batch))))
      && PrefixBefore(batch, ToEntry(Last(batch)).id) == Init(batch)
  {
    var entries := seq(|batch|, i requires 0 <= i < |batch| => ToEntry(batch[i]));
    FilterAtEntry(batch, |batch| - 1);
  }

  /** The same, on two lifelogs: "c" is newer than "b", both are accepted,
      and the next pass sends "c" a second time. */
  lemma AsWrittenExample()
    ensures var c := Lifelog(Some("c"), None, None, None, Some("2024-01-01T10:00:00Z"));
      var b := Lifelog(Some("b"), None, None, None, Some("2024-01-01T09:00:00Z"));
      var entries := [ToEntry(c), ToEntry(b)];
      var replies := [Answer(200, JsonObject), Answer(200, JsonObject)];
      && FileAfter(entries, replies, 2, Missing) == Stored(Watermark("b", Text("2024-01-01T09:00:00Z")))
      && PrefixBefore([c, b], "b") == [c]
  {
    var c := Lifelog(Some("c"), None, None, None, Some("2024-01-01T10:00:00Z"));
    var b := Lifelog(Some("b"), None, None, None, Some("2024-01-01T09:00:00Z"));
    assert [c, b][1..] == [b];
    assert IdIndex([c, b], "b") == 1 + IdIndex([b], "b") == 1;
    assert [c, b][..1] == [c];
  }

  /** Corrected: the watermark should go to the newest entry such that it and
      every older entry were accepted; the first index of the accepted tail
      of the first `n` replies. */
  function SafeIndex(replies: seq<PostReply>, n: nat): (p: nat)
    ensures p <= n
    ensures forall j :: p <= j < n ==> Accepted(PostReplyAt(replies, j))
    ensures p > 0 ==> !Accepted(PostReplyAt(replies, p - 1))
  {
    if n == 0 || !Accepted(PostReplyAt(replies, n - 1)) then n else SafeIndex(replies, n - 1)
  }

  /** The corrected watermark file after a run over `entries` that posted
      all of them: moved to the safe index when the accepted tail is not
      empty, kept otherwise. */
  function SafeFileAfter(entries: seq<Entry>, replies: seq<PostReply>, initial: FileState): FileState
  {
    var p := SafeIndex(replies, |entries|);
    if p < |entries| then Stored(MarkOf(entries[p])) else initial
  }

  /** With the corrected watermark, the next pass over the same batch sends
      again exactly the lifelogs before the accepted tail. Every entry Notion
      did not accept is among them, so no failure is lost; accepted entries
      newer than a failure are sent again; a fully accepted batch sends
      nothing. */
  lemma SafeResendsEveryFailure(batch: seq<Lifelog>, replies: seq<PostReply>, initial: FileState)
    requires DistinctIds(batch)
    requires batch != [] && Accepted(PostReplyAt(replies, |batch| - 1))
    ensures var entries := seq(|batch|, i requires 0 <= i < |batch| => ToEntry(batch[i]));
      var p := SafeIndex(replies, |batch|);
      && p < |batch|
      && SafeFileAfter(entries, replies, initial) == Stored(MarkOf(entries[p]))
      && PrefixBefore(batch, entries[p].id) == batch[..p]
      && (forall j :: 0 <= j < |batch| && !Accepted(PostReplyAt(replies, j)) ==> batch[j] in batch[..p])
      && ((forall j :: 0 <= j < |batch| ==> Accepted(PostReplyAt(replies, j))) ==> p == 0)
  {
    var entries := seq(|batch|, i requires 0 <= i < |batch| => ToEntry(batch[i]));
    var p := SafeIndex(replies, |batch|);
    FilterAtEntry(batch, p);
    forall j | 0 <= j < |batch| && !Accepted(PostReplyAt(replies, j))
      ensures batch[j] in batch[..p]
    {
      assert j < p;
      assert batch[..p][j] == batch[j];
    }
    if p > 0 {
      assert !Accepted(PostReplyAt(replies, p - 1));
    }
  }
}
