/** The chart endpoints of the server: creating saved, generated and
    downloaded chart records with their defaults, the access rules of
    reading, updating, deleting and downloading a chart, the per-user chart
    list, and the statistics of the admin chart list.  The chart collection
    is a sequence of records held by `ChartStore`. */
module ChartController {
  import opened Common

  const Ok: nat := 200
  const Created: nat := 201
  const BadRequest: nat := 400
  const Forbidden: nat := 403
  const NotFound: nat := 404
  const ServerError: nat := 500

  /** `chartData` as far as the server reads it: `datasets`, and for each
      dataset the length of its `data` array when it has one. */
  datatype ChartData = ChartData(datasets: Option<seq<Option<nat>>>)

  /** A chart record.  `fileName` is `metadata.originalFileName`,
      `dataPoints` is `metadata.dataPoints` and `source` is `chartSource`. */
  datatype ChartDoc = ChartDoc(
    id: string, owner: string, title: string, chartType: string, data: ChartData,
    description: string, tags: seq<string>, isPublic: bool, source: string,
    sourceFile: Option<string>, downloadCount: nat, fileName: string, dataPoints: nat, createdAt: int)

  /** The authenticated user: the stored user record has an id and a role,
      and no `isAdmin` field. */
  datatype Caller = Caller(id: string, role: string)

  predicate IsAdmin(c: Caller) {
    c.role == "admin"
  }

  /** A request body.  String properties are `""` when absent, which is
      falsy as well; `fileName` is `chartOptions?.fileName`. */
  datatype ChartRequest = ChartRequest(
    title: string, chartType: string, data: Option<ChartData>, fileName: string,
    description: string, tags: Option<seq<string>>, isPublic: Option<bool>)

  /** The `chartType` values the chart schema accepts; saving any other
      value fails validation. */
  predicate ValidType(t: string) {
    t in {"bar", "line", "pie", "doughnut", "radar", "scatter"}
  }

  /** `s || fallback` on a string. */
  function Or(s: string, fallback: string): string {
    if s != "" then s else fallback
  }

  /** `chartData?.datasets?.[0]?.data?.length || 0`. */
  function DataPoints(d: ChartData): (n: nat)
    ensures d.datasets.Some? && d.datasets.value != [] && d.datasets.value[0].Some? ==> n == d.datasets.value[0].value
    ensures d.datasets.None? || d.datasets.value == [] || d.datasets.value[0].None? ==> n == 0
  {
    if d.datasets.Some? && |d.datasets.value| > 0 && d.datasets.value[0].Some? then d.datasets.value[0].value else 0
  }

  function UpperChar(c: char): char {
    if 'a' <= c <= 'z' then (c as int - 'a' as int + 'A' as int) as char else c
  }

  /** `t.charAt(0).toUpperCase() + t.slice(1)`. */
  function Capitalised(t: string): (r: string)
    ensures |r| == |t|
    ensures t != [] ==> r[0] == UpperChar(t[0]) && r[1..] == t[1..]
  {
    if t == [] then [] else [UpperChar(t[0])] + t[1..]
  }

  /** The record `saveChart` creates. */
  function SavedDoc(req: ChartRequest, owner: string, id: string, now: int): (d: ChartDoc)
    requires req.data.Some?
    ensures d.owner == owner && d.title == req.title && d.chartType == req.chartType && d.data == req.data.value
    ensures d.description == (if req.description != "" then req.description else "Saved " + req.chartType + " chart")
    ensures d.tags == (if req.tags.Some? then req.tags.value else [req.chartType, "saved"])
    ensures d.isPublic == (req.isPublic == Some(true))
    ensures d.source == "saved" && d.sourceFile.None? && d.downloadCount == 0
    ensures d.dataPoints == DataPoints(req.data.value) && d.fileName == req.fileName
  {
    ChartDoc(id, owner, req.title, req.chartType, req.data.value,
             Or(req.description, "Saved " + req.chartType + " chart"),
             if req.tags.Some? then req.tags.value else [req.chartType, "saved"],
             req.isPublic == Some(true), "saved", None, 0, req.fileName, DataPoints(req.data.value), now)
  }

  /** The record `trackChartGeneration` creates; `today` is the server's
      locale date. */
  function GeneratedDoc(req: ChartRequest, owner: string, id: string, now: int, today: string): (d: ChartDoc)
    requires req.data.Some?
    ensures d.owner == owner && d.chartType == req.chartType && d.data == req.data.value
    ensures d.title == "Generated " + Capitalised(req.chartType) + " Chart - " + today
    ensures d.description == "Auto-generated " + req.chartType + " chart from " + Or(req.fileName, "data")
    ensures d.tags == ["generated", req.chartType] && !d.isPublic
    ensures d.source == "generated" && d.sourceFile.None? && d.downloadCount == 0
    ensures d.dataPoints == DataPoints(req.data.value)
  {
    ChartDoc(id, owner, "Generated " + Capitalised(req.chartType) + " Chart - " + today, req.chartType, req.data.value,
             "Auto-generated " + req.chartType + " chart from " + Or(req.fileName, "data"),
             ["generated", req.chartType], false, "generated", None, 0, req.fileName, DataPoints(req.data.value), now)
  }

  /** The record `createDownloadedChart` creates: counted once already. */
  function DownloadedDoc(req: ChartRequest, owner: string, id: string, now: int): (d: ChartDoc)
    requires req.data.Some?
    ensures d.owner == owner && d.chartType == req.chartType && d.data == req.data.value
    ensures d.title == (if req.title != "" then req.title else "Downloaded " + Capitalised(req.chartType) + " Chart")
    ensures d.description == "Downloaded " + req.chartType + " chart from " + Or(req.fileName, "data")
    ensures d.tags == ["downloaded", req.chartType] && !d.isPublic
    ensures d.source == "downloaded" && d.sourceFile.None? && d.downloadCount == 1
    ensures d.dataPoints == DataPoints(req.data.value)
  {
    ChartDoc(id, owner, Or(req.title, "Downloaded " + Capitalised(req.chartType) + " Chart"), req.chartType, req.data.value,
             "Downloaded " + req.chartType + " chart from " + Or(req.fileName, "data"),
             ["downloaded", req.chartType], false, "downloaded", None, 1, req.fileName, DataPoints(req.data.value), now)
  }

  /** `Chart.findById(id)`: the position of the record with that id. */
  function IndexOf(docs: seq<ChartDoc>, id: string): (r: Option<nat>)
    ensures r.None? <==> forall i :: 0 <= i < |docs| ==> docs[i].id != id
    ensures r.Some? ==> (r.value < |docs| && docs[r.value].id == id
                         && forall j :: 0 <= j < r.value ==> docs[j].id != id)
  {
    if docs == [] then None
    else if docs[0].id == id then Some(0)
    else
      var rest := IndexOf(docs[1..], id);
      if rest.Some? then Some(rest.value + 1) else None
  }

  // ---------------------------------------------------------------------------
  // Access rules

  /** `getChart`: the owner, or anyone for a public chart. */
  predicate MayRead(d: ChartDoc, c: Caller) {
    d.owner == c.id || d.isPublic
  }

  /** `updateChart`: the owner only; the admin role gives no bypass. */
  predicate MayUpdate(d: ChartDoc, c: Caller) {
    d.owner == c.id
  }

  /** `deleteChart` and `trackChartDownload`: an admin, or the owner. */
  predicate MayDelete(d: ChartDoc, c: Caller) {
    IsAdmin(c) || d.owner == c.id
  }

  /** `downloadChart` as written: the owner, or a caller whose user record
      has a truthy `isAdmin`, which no user record has. */
  predicate MayDownloadAsWritten(d: ChartDoc, c: Caller) {
    d.owner == c.id || false
  }

  /** `downloadChart` as its comment says: the owner, or an admin. */
  predicate MayDownload(d: ChartDoc, c: Caller) {
    d.owner == c.id || IsAdmin(c)
  }

  /** As written, an admin may not download a chart owned by someone else,
      although the rule meant to let admins through. */
  lemma AdminDownloadRefusedAsWritten(d: ChartDoc, c: Caller)
    requires d.owner != c.id && IsAdmin(c)
    ensures !MayDownloadAsWritten(d, c) && MayDownload(d, c)
  {
  }

  /** The corrected rule is the one of `trackChartDownload`, and it lets
      through everyone the written one does. */
  lemma DownloadMatchesTrackDownload(d: ChartDoc, c: Caller)
    ensures MayDownload(d, c) <==> MayDelete(d, c)
    ensures MayDownloadAsWritten(d, c) ==> MayDownload(d, c)
  {
  }

  /** The reply of a read: the status, and the chart for a 200. */
  datatype Reply = Reply(status: nat, chart: Option<ChartDoc>)

  /** `getChart`: 404 for a missing chart, 403 unless the caller owns it or
      it is public. */
  function GetChart(docs: seq<ChartDoc>, id: string, c: Caller): (r: Reply)
    ensures r.status == NotFound <==> IndexOf(docs, id).None?
    ensures r.status == Forbidden <==> IndexOf(docs, id).Some? && !MayRead(docs[IndexOf(docs, id).value], c)
    ensures r.status == Ok <==> IndexOf(docs, id).Some? && MayRead(docs[IndexOf(docs, id).value], c)
    ensures r.status == Ok ==> r.chart == Some(docs[IndexOf(docs, id).value])
    ensures r.status != Ok ==> r.chart.None?
  {
    var i := IndexOf(docs, id);
    if i.None? then Reply(NotFound, None)
    else if !MayRead(docs[i.value], c) then Reply(Forbidden, None)
    else Reply(Ok, Some(docs[i.value]))
  }

  /** `getUserCharts`: every chart for an admin, otherwise the caller's own
      saved charts. */
  function UserCharts(docs: seq<ChartDoc>, c: Caller): (r: seq<ChartDoc>)
    ensures IsAdmin(c) ==> r == docs
    ensures !IsAdmin(c) ==> forall d :: d in r <==> d in docs && d.owner == c.id && d.source == "saved"
    ensures IsSubsequence(r, docs)
  {
    if IsAdmin(c) then
      var all := (d: ChartDoc) => true;
      FilterIsSubsequence(docs, all);
      FilterKeepsAll(docs, all);
      docs
    else
      var mine := (d: ChartDoc) => d.owner == c.id && d.source == "saved";
      FilterIsSubsequence(docs, mine);
      FilterMembers(docs, mine);
      Filter(docs, mine)
  }

  /** `getPublicCharts`: the public charts, whoever asks. */
  function PublicCharts(docs: seq<ChartDoc>): (r: seq<ChartDoc>)
    ensures forall d :: d in r <==> d in docs && d.isPublic
    ensures IsSubsequence(r, docs)
  {
    FilterIsSubsequence(docs, IsPublicDoc);
    FilterMembers(docs, IsPublicDoc);
    Filter(docs, IsPublicDoc)
  }

  /** `downloadAllCharts` as written: the caller's own charts for every
      caller, or `None` (404) when there are none. */
  function DownloadAllAsWritten(docs: seq<ChartDoc>, c: Caller): (r: Option<seq<ChartDoc>>)
    ensures r.Some? ==> r.value != [] && forall d :: d in r.value <==> d in docs && d.owner == c.id
    ensures r.None? <==> forall d :: d in docs ==> d.owner != c.id
  {
    var own := Filter(docs, (d: ChartDoc) => d.owner == c.id);
    FilterMembers(docs, (d: ChartDoc) => d.owner == c.id);
    if own == [] then
      None
    else
      assert own[0] in own;
      Some(own)
  }

  /** `downloadAllCharts` as intended: every chart for an admin. */
  function DownloadAll(docs: seq<ChartDoc>, c: Caller): (r: Option<seq<ChartDoc>>)
    ensures IsAdmin(c) ==> (r.Some? <==> docs != []) && (r.Some? ==> r.value == docs)
    ensures !IsAdmin(c) ==> r == DownloadAllAsWritten(docs, c)
  {
    if IsAdmin(c) then (if docs == [] then None else Some(docs))
    else DownloadAllAsWritten(docs, c)
  }

  /** As written, an admin who owns no chart gets 404 however many charts
      exist. */
  lemma AdminDownloadAllAsWritten(d: ChartDoc, c: Caller)
    requires d.owner != c.id && IsAdmin(c)
    ensures DownloadAllAsWritten([d], c).None? && DownloadAll([d], c) == Some([d])
  {
  }

  // ---------------------------------------------------------------------------
  // Statistics of `getAllCharts`

  datatype Stats = Stats(total: nat, generated: nat, saved: nat, downloaded: nat,
                         publicCharts: nat, privateCharts: nat, uniqueUsers: nat, recent: nat)

  /** The distinct owners. */
  function Owners(docs: seq<ChartDoc>): (r: set<string>)
    ensures forall o :: o in r <==> exists d :: d in docs && d.owner == o
  {
    if docs == [] then {}
    else
      assert forall d :: d in docs ==> d == docs[0] || d in docs[1..];
      {docs[0].owner} + Owners(docs[1..])
  }

  lemma {:induction false} OwnersBound(docs: seq<ChartDoc>)
    ensures |Owners(docs)| <= |docs|
  {
    if docs != [] {
      OwnersBound(docs[1..]);
    }
  }

  predicate IsGenerated(d: ChartDoc) { d.source == "generated" }
  predicate IsSaved(d: ChartDoc) { d.source == "saved" }
  predicate IsDownloaded(d: ChartDoc) { d.source == "downloaded" }
  predicate IsPublicDoc(d: ChartDoc) { d.isPublic }
  predicate IsPrivateDoc(d: ChartDoc) { !d.isPublic }

  /** `statistics`; `since` is the instant seven days before the request. */
  function Statistics(docs: seq<ChartDoc>, since: int): (s: Stats)
    ensures s.total == |docs|
    ensures s.generated == CountWhere(docs, IsGenerated) && s.saved == CountWhere(docs, IsSaved)
    ensures s.downloaded == CountWhere(docs, IsDownloaded)
    ensures s.publicCharts == CountWhere(docs, IsPublicDoc) && s.privateCharts == CountWhere(docs, IsPrivateDoc)
    ensures s.uniqueUsers == |Owners(docs)|
    ensures s.recent == CountWhere(docs, (d: ChartDoc) => d.createdAt > since)
  {
    Stats(|docs|, CountWhere(docs, IsGenerated), CountWhere(docs, IsSaved), CountWhere(docs, IsDownloaded),
          CountWhere(docs, IsPublicDoc), CountWhere(docs, IsPrivateDoc), |Owners(docs)|,
          CountWhere(docs, (d: ChartDoc) => d.createdAt > since))
  }

  /** Three counts by pairwise exclusive tests add up to at most the
      length. */
  lemma {:induction false} ExclusiveCounts<T(!new)>(s: seq<T>, p: T -> bool, q: T -> bool, r: T -> bool)
    requires forall x :: !(p(x) && q(x)) && !(p(x) && r(x)) && !(q(x) && r(x))
    ensures CountWhere(s, p) + CountWhere(s, q) + CountWhere(s, r) <= |s|
  {
    if s != [] {
      ExclusiveCounts(s[1..], p, q, r);
    }
  }

  /** Two complementary tests split the sequence. */
  lemma {:induction false} ComplementCounts<T(!new)>(s: seq<T>, p: T -> bool, q: T -> bool)
    requires forall x :: q(x) == !p(x)
    ensures CountWhere(s, p) + CountWhere(s, q) == |s|
  {
    if s != [] {
      ComplementCounts(s[1..], p, q);
    }
  }

  /** Public and private charts make up the total, the three sources at
      most the total, and there are no more owners than charts. */
  lemma StatisticsBounds(docs: seq<ChartDoc>, since: int)
    ensures var s := Statistics(docs, since);
      s.publicCharts + s.privateCharts == s.total
      && s.generated + s.saved + s.downloaded <= s.total
      && s.uniqueUsers <= s.total && s.recent <= s.total
  {
    ComplementCounts(docs, IsPublicDoc, IsPrivateDoc);
    ExclusiveCounts(docs, IsGenerated, IsSaved, IsDownloaded);
    OwnersBound(docs);
  }

  // ---------------------------------------------------------------------------
  // The collection

  /** The chart collection, oldest record first. */
  class ChartStore {
    var docs: seq<ChartDoc>

    constructor(initial: seq<ChartDoc>)
      ensures docs == initial
    {
      docs := initial;
    }

    /** `saveChart`: 400 without a title, a type or the chart data, 500 when
        the schema refuses the type, else the record is added. */
    method Save(req: ChartRequest, c: Caller, id: string, now: int) returns (status: nat)
      modifies this
      ensures status == BadRequest <==> req.title == "" || req.chartType == "" || req.data.None?
      ensures status == ServerError <==> req.title != "" && req.chartType != "" && req.data.Some? && !ValidType(req.chartType)
      ensures status == Created ==> docs == old(docs) + [SavedDoc(req, c.id, id, now)]
      ensures status != Created ==> docs == old(docs)
      ensures status in {BadRequest, ServerError, Created}
    {
      if req.title == "" || req.chartType == "" || req.data.None? {
        return BadRequest;
      }
      if !ValidType(req.chartType) {
        return ServerError;
      }
      docs := docs + [SavedDoc(req, c.id, id, now)];
      status := Created;
    }

    /** `trackChartGeneration`: 400 without a type or the chart data. */
    method TrackGeneration(req: ChartRequest, c: Caller, id: string, now: int, today: string) returns (status: nat)
      modifies this
      ensures status == BadRequest <==> req.chartType == "" || req.data.None?
      ensures status == ServerError <==> req.chartType != "" && req.data.Some? && !ValidType(req.chartType)
      ensures status == Created ==> docs == old(docs) + [GeneratedDoc(req, c.id, id, now, today)]
      ensures status != Created ==> docs == old(docs)
      ensures status in {BadRequest, ServerError, Created}
    {
      if req.chartType == "" || req.data.None? {
        return BadRequest;
      }
      if !ValidType(req.chartType) {
        return ServerError;
      }
      docs := docs + [GeneratedDoc(req, c.id, id, now, today)];
      status := Created;
    }

    /** `createDownloadedChart`: as `trackChartGeneration`, for a download. */
    method RecordDownloaded(req: ChartRequest, c: Caller, id: string, now: int) returns (status: nat)
      modifies this
      ensures status == BadRequest <==> req.chartType == "" || req.data.None?
      ensures status == ServerError <==> req.chartType != "" && req.data.Some? && !ValidType(req.chartType)
      ensures status == Created ==> docs == old(docs) + [DownloadedDoc(req, c.id, id, now)]
      ensures status != Created ==> docs == old(docs)
      ensures status in {BadRequest, ServerError, Created}
    {
      if req.chartType == "" || req.data.None? {
        return BadRequest;
      }
      if !ValidType(req.chartType) {
        return ServerError;
      }
      docs := docs + [DownloadedDoc(req, c.id, id, now)];
      status := Created;
    }

    /** One more download of record `i`. */
    method CountDownload(i: nat) returns (count: nat)
      requires i < |docs|
      modifies this
      ensures |docs| == |old(docs)| && count == old(docs)[i].downloadCount + 1
      ensures docs == old(docs)[i := old(docs)[i].(downloadCount := count)]
    {
      count := docs[i].downloadCount + 1;
      docs := docs[i := docs[i].(downloadCount := count)];
    }

    /** `trackChartDownload`: 404 for a missing chart, 403 unless the caller
        owns it or is an admin, and otherwise exactly one more download. */
    method TrackDownload(id: string, c: Caller) returns (status: nat, count: Option<nat>)
      modifies this
      ensures status == NotFound <==> IndexOf(old(docs), id).None?
      ensures status == Forbidden <==> IndexOf(old(docs), id).Some? && !MayDelete(old(docs)[IndexOf(old(docs), id).value], c)
      ensures status == Ok <==> IndexOf(old(docs), id).Some? && MayDelete(old(docs)[IndexOf(old(docs), id).value], c)
      ensures status == Ok ==> (var i := IndexOf(old(docs), id).value;
                                count == Some(old(docs)[i].downloadCount + 1)
                                && docs == old(docs)[i := old(docs)[i].(downloadCount := count.value)])
      ensures status != Ok ==> docs == old(docs) && count.None?
    {
      var i := IndexOf(docs, id);
      if i.None? {
        return NotFound, None;
      }
      if !MayDelete(docs[i.value], c) {
        return Forbidden, None;
      }
      var n := CountDownload(i.value);
      status, count := Ok, Some(n);
    }

    /** `downloadChart` as written: only the owner passes the rule, so an
        admin is refused another user's chart and nothing is counted. */
    method Download(id: string, c: Caller) returns (status: nat, chart: Option<ChartDoc>)
      modifies this
      ensures status == NotFound <==> IndexOf(old(docs), id).None?
      ensures status == Forbidden <==> IndexOf(old(docs), id).Some? && !MayDownloadAsWritten(old(docs)[IndexOf(old(docs), id).value], c)
      ensures status == Ok <==> IndexOf(old(docs), id).Some? && MayDownloadAsWritten(old(docs)[IndexOf(old(docs), id).value], c)
      ensures status == Ok ==> (var i := IndexOf(old(docs), id).value;
                                docs == old(docs)[i := old(docs)[i].(downloadCount := old(docs)[i].downloadCount + 1)]
                                && chart == Some(docs[i]))
      ensures status != Ok ==> docs == old(docs) && chart.None?
      ensures status in {NotFound, Forbidden, Ok}
    {
      var i := IndexOf(docs, id);
      if i.None? {
        return NotFound, None;
      }
      if !MayDownloadAsWritten(docs[i.value], c) {
        return Forbidden, None;
      }
      var _ := CountDownload(i.value);
      status, chart := Ok, Some(docs[i.value]);
    }

    /** `downloadChart` with the admin rule as intended: the owner or an
        admin passes, as in `trackChartDownload`. */
    method DownloadAsIntended(id: string, c: Caller) returns (status: nat, chart: Option<ChartDoc>)
      modifies this
      ensures status == NotFound <==> IndexOf(old(docs), id).None?
      ensures status == Forbidden <==> IndexOf(old(docs), id).Some? && !MayDownload(old(docs)[IndexOf(old(docs), id).value], c)
      ensures status == Ok <==> IndexOf(old(docs), id).Some? && MayDownload(old(docs)[IndexOf(old(docs), id).value], c)
      ensures status == Ok ==> (var i := IndexOf(old(docs), id).value;
                                docs == old(docs)[i := old(docs)[i].(downloadCount := old(docs)[i].downloadCount + 1)]
                                && chart == Some(docs[i]))
      ensures status != Ok ==> docs == old(docs) && chart.None?
      ensures status in {NotFound, Forbidden, Ok}
    {
      var i := IndexOf(docs, id);
      if i.None? {
        return NotFound, None;
      }
      if !MayDownload(docs[i.value], c) {
        return Forbidden, None;
      }
      var _ := CountDownload(i.value);
      status, chart := Ok, Some(docs[i.value]);
    }

    /** `deleteChart`: an admin deletes any chart, anyone else only their
        own; the reply says which rule applied. */
    method Delete(id: string, c: Caller) returns (status: nat, deletedBy: Option<string>)
      modifies this
      ensures status == NotFound <==> IndexOf(old(docs), id).None?
      ensures status == Forbidden <==> IndexOf(old(docs), id).Some? && !MayDelete(old(docs)[IndexOf(old(docs), id).value], c)
      ensures status == Ok ==> (var i := IndexOf(old(docs), id).value;
                                docs == old(docs)[..i] + old(docs)[i + 1..]
                                && deletedBy == Some(if IsAdmin(c) then "admin" else "owner"))
      ensures status != Ok ==> docs == old(docs) && deletedBy.None?
      ensures status in {NotFound, Forbidden, Ok}
    {
      var i := IndexOf(docs, id);
      if i.None? {
        return NotFound, None;
      }
      if !MayDelete(docs[i.value], c) {
        return Forbidden, None;
      }
      docs := docs[..i.value] + docs[i.value + 1..];
      status, deletedBy := Ok, Some(if IsAdmin(c) then "admin" else "owner");
    }

    /** `updateChart`: only the owner may replace the record's contents;
        `updated` is the record after the update, with the same id. */
    method Update(id: string, c: Caller, updated: ChartDoc) returns (status: nat)
      modifies this
      ensures status == NotFound <==> IndexOf(old(docs), id).None?
      ensures status == Forbidden <==> IndexOf(old(docs), id).Some? && !MayUpdate(old(docs)[IndexOf(old(docs), id).value], c)
      ensures status == Ok ==> docs == old(docs)[IndexOf(old(docs), id).value := updated.(id := id)]
      ensures status != Ok ==> docs == old(docs)
      ensures status in {NotFound, Forbidden, Ok}
    {
      var i := IndexOf(docs, id);
      if i.None? {
        return NotFound;
      }
      if !MayUpdate(docs[i.value], c) {
        return Forbidden;
      }
      docs := docs[i.value := updated.(id := id)];
      status := Ok;
    }
  }

  /** An admin who does not own a chart may delete it and count its
      download, but not change it. */
  lemma AdminMayDeleteNotUpdate(d: ChartDoc, c: Caller)
    requires IsAdmin(c) && d.owner != c.id
    ensures MayDelete(d, c) && !MayUpdate(d, c) && (MayRead(d, c) <==> d.isPublic)
  {
  }
}
