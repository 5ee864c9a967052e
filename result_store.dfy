/**
 * The in-memory result store: crawl results, their de-duplication by work id,
 * the per-image expansion of multi-image works, the rank map and the
 * `allowWork` / `quickDownload` / `notAutoDownload` state flags.
 */
module ResultStore {
  import opened Wrappers
  import opened Text
  import opened Decimal

  /** Type tag of novels; every other tag is an image work */
  const NovelType := 3

  /**
   * One crawl result. `workType` is the source's `type` field (a reserved word here).
   * `ugoiraInfo` and `novelBlob` are payloads this core never reads; they are kept as text.
   */
  datatype Result = Result(
    idNum: int,
    id: string,
    url: string,
    thumb: string,
    title: string,
    pageCount: int,
    dlCount: int,
    tags: seq<string>,
    tagsWithTransl: seq<string>,
    tagsTranslOnly: seq<string>,
    user: string,
    userId: string,
    fullWidth: int,
    fullHeight: int,
    ext: string,
    bmk: int,
    bookmarked: bool,
    date: string,
    workType: int,
    rank: string,
    ugoiraInfo: Option<string>,
    seriesTitle: Option<string>,
    seriesOrder: Option<string>,
    novelBlob: Option<string>)

  /** A partially filled result: `None` is a property the caller did not pass */
  datatype WorkInfo = WorkInfo(
    idNum: Option<int>,
    id: Option<string>,
    url: Option<string>,
    thumb: Option<string>,
    title: Option<string>,
    pageCount: Option<int>,
    dlCount: Option<int>,
    tags: Option<seq<string>>,
    tagsWithTransl: Option<seq<string>>,
    tagsTranslOnly: Option<seq<string>>,
    user: Option<string>,
    userId: Option<string>,
    fullWidth: Option<int>,
    fullHeight: Option<int>,
    ext: Option<string>,
    bmk: Option<int>,
    bookmarked: Option<bool>,
    date: Option<string>,
    workType: Option<int>,
    rank: Option<string>,
    ugoiraInfo: Option<Option<string>>,
    seriesTitle: Option<Option<string>>,
    seriesOrder: Option<Option<string>>,
    novelBlob: Option<Option<string>>)

  /** An id record collected from a listing page; this core only clears the list */
  datatype IdData = IdData(workType: string, id: string)

  const DefaultResult := Result(0, "", "", "", "", 1, 1, [], [], [], "", "", 0, 0, "", 0, false, "", 0, "",
                                None, None, None, None)

  const NoFields := WorkInfo(None, None, None, None, None, None, None, None, None, None, None, None, None,
                             None, None, None, None, None, None, None, None, None, None, None)

  /** Every field of `r`, supplied */
  function AllFields(r: Result): WorkInfo
  {
    WorkInfo(Some(r.idNum), Some(r.id), Some(r.url), Some(r.thumb), Some(r.title), Some(r.pageCount),
             Some(r.dlCount), Some(r.tags), Some(r.tagsWithTransl), Some(r.tagsTranslOnly), Some(r.user),
             Some(r.userId), Some(r.fullWidth), Some(r.fullHeight), Some(r.ext), Some(r.bmk),
             Some(r.bookmarked), Some(r.date), Some(r.workType), Some(r.rank), Some(r.ugoiraInfo),
             Some(r.seriesTitle), Some(r.seriesOrder), Some(r.novelBlob))
  }

  /** `Object.assign(defaults, data)`: supplied fields win, every other field keeps its default */
  function AssignResult(data: WorkInfo): (r: Result)
    ensures r.idNum == (if data.idNum.Some? then data.idNum.value else 0)
    ensures r.id == (if data.id.Some? then data.id.value else "")
    ensures r.url == (if data.url.Some? then data.url.value else "")
    ensures r.thumb == (if data.thumb.Some? then data.thumb.value else "")
    ensures r.title == (if data.title.Some? then data.title.value else "")
    ensures r.pageCount == (if data.pageCount.Some? then data.pageCount.value else 1)
    ensures r.dlCount == (if data.dlCount.Some? then data.dlCount.value else 1)
    ensures r.tags == (if data.tags.Some? then data.tags.value else [])
    ensures r.tagsWithTransl == (if data.tagsWithTransl.Some? then data.tagsWithTransl.value else [])
    ensures r.tagsTranslOnly == (if data.tagsTranslOnly.Some? then data.tagsTranslOnly.value else [])
    ensures r.user == (if data.user.Some? then data.user.value else "")
    ensures r.userId == (if data.userId.Some? then data.userId.value else "")
    ensures r.fullWidth == (if data.fullWidth.Some? then data.fullWidth.value else 0)
    ensures r.fullHeight == (if data.fullHeight.Some? then data.fullHeight.value else 0)
    ensures r.ext == (if data.ext.Some? then data.ext.value else "")
    ensures r.bmk == (if data.bmk.Some? then data.bmk.value else 0)
    ensures r.bookmarked == (data.bookmarked.Some? && data.bookmarked.value)
    ensures r.date == (if data.date.Some? then data.date.value else "")
    ensures r.workType == (if data.workType.Some? then data.workType.value else 0)
    ensures r.rank == (if data.rank.Some? then data.rank.value else "")
    ensures r.ugoiraInfo == (if data.ugoiraInfo.Some? then data.ugoiraInfo.value else None)
    ensures r.seriesTitle == (if data.seriesTitle.Some? then data.seriesTitle.value else None)
    ensures r.seriesOrder == (if data.seriesOrder.Some? then data.seriesOrder.value else None)
    ensures r.novelBlob == (if data.novelBlob.Some? then data.novelBlob.value else None)
  {
    var d := DefaultResult;
    Result(data.idNum.GetOr(d.idNum), data.id.GetOr(d.id), data.url.GetOr(d.url), data.thumb.GetOr(d.thumb),
           data.title.GetOr(d.title), data.pageCount.GetOr(d.pageCount), data.dlCount.GetOr(d.dlCount),
           data.tags.GetOr(d.tags), data.tagsWithTransl.GetOr(d.tagsWithTransl),
           data.tagsTranslOnly.GetOr(d.tagsTranslOnly), data.user.GetOr(d.user), data.userId.GetOr(d.userId),
           data.fullWidth.GetOr(d.fullWidth), data.fullHeight.GetOr(d.fullHeight), data.ext.GetOr(d.ext),
           data.bmk.GetOr(d.bmk), data.bookmarked.GetOr(d.bookmarked), data.date.GetOr(d.date),
           data.workType.GetOr(d.workType), data.rank.GetOr(d.rank), data.ugoiraInfo.GetOr(d.ugoiraInfo),
           data.seriesTitle.GetOr(d.seriesTitle), data.seriesOrder.GetOr(d.seriesOrder),
           data.novelBlob.GetOr(d.novelBlob))
  }

  /** Merging nothing yields the default record; merging a whole record yields that record */
  lemma AssignResultExtremes(r: Result)
    ensures AssignResult(NoFields) == DefaultResult
    ensures AssignResult(AllFields(r)) == r
  {
  }

  /** Number of loop iterations of `for (i = 0; i < n; i++)` */
  function Count(n: int): nat
  {
    if n > 0 then n else 0
  }

  /** The record for image `i` of a merged work */
  function PageRecord(base: Result, i: nat, parseInt: string -> int): Result
  {
    base.(idNum := parseInt(base.id),
          id := base.id + "_p" + ToDecimal(i),
          url := ReplaceFirst(base.url, "p0", "p" + ToDecimal(i)))
  }

  /** What `addResult` appends to `result` for a work that was not seen before */
  function Expansion(data: WorkInfo, parseInt: string -> int): seq<Result>
  {
    var base := AssignResult(data);
    if base.workType == NovelType then [base] else Pages(base, parseInt)
  }

  /** One record per image of `base`, in order */
  function Pages(base: Result, parseInt: string -> int): (r: seq<Result>)
    ensures |r| == Count(base.dlCount)
  {
    seq(Count(base.dlCount), i requires 0 <= i < Count(base.dlCount) => PageRecord(base, i, parseInt))
  }

  /**
   * A novel contributes its merged record; any other work contributes one record per image, in order,
   * whose id is suffixed with `_p<i>` and whose url has its first `p0` replaced by `p<i>`.
   */
  lemma ExpansionShape(data: WorkInfo, parseInt: string -> int)
    ensures var base := AssignResult(data);
      && (base.workType == NovelType ==> Expansion(data, parseInt) == [base])
      && (base.workType != NovelType ==>
            && |Expansion(data, parseInt)| == Count(base.dlCount)
            && forall i :: 0 <= i < Count(base.dlCount) ==>
                 var e := Expansion(data, parseInt)[i];
                 && e.idNum == parseInt(base.id)
                 && e.id == base.id + "_p" + ToDecimal(i)
                 && e.url == ReplaceFirst(base.url, "p0", "p" + ToDecimal(i))
                 && e.(idNum := base.idNum, id := base.id, url := base.url) == base)
  {
  }

  /** Whether `addResult` drops `data` as already added */
  predicate IsDuplicate(data: WorkInfo, resultIDList: seq<int>)
  {
    data.idNum.Some? && data.idNum.value in resultIDList
  }

  /** The lifecycle events the store listens to (and the others, which it ignores) */
  datatype Event =
    | CrawlStart | CrawlFinish | CrawlEmpty | CrawlError
    | DownloadStart | DownloadPause | DownloadStop | DownloadSuccess | DownloadComplete

  /** The value an event's listener assigns to `allowWork`, if it has one */
  function AllowWorkAfter(e: Event): Option<bool>
  {
    match e
    case CrawlFinish | CrawlEmpty | CrawlError | DownloadPause | DownloadStop => Some(true)
    case CrawlStart | DownloadStart => Some(false)
    case DownloadSuccess | DownloadComplete => None
  }

  class Store {
    var idList: seq<IdData>
    var resultMeta: seq<Result>
    var resultIDList: seq<int>
    var result: seq<Result>
    var rankList: map<string, string>
    var allowWork: bool
    var quickDownload: bool
    var notAutoDownload: bool
    var pageTitle: string
    var pageTag: string

    constructor ()
      ensures idList == [] && resultMeta == [] && resultIDList == [] && result == [] && rankList == map[]
      ensures allowWork && !quickDownload && !notAutoDownload
      ensures pageTitle == "" && pageTag == ""
    {
      idList, resultMeta, resultIDList, result, rankList := [], [], [], [], map[];
      allowWork, quickDownload, notAutoDownload := true, false, false;
      pageTitle, pageTag := "", "";
    }

    /** Adds one work, unless a work with the same defined `idNum` was added before */
    method AddResult(data: WorkInfo, parseInt: string -> int)
      modifies this
      ensures IsDuplicate(data, old(resultIDList)) ==>
        resultIDList == old(resultIDList) && resultMeta == old(resultMeta) && result == old(result)
      ensures !IsDuplicate(data, old(resultIDList)) ==>
        && resultIDList == old(resultIDList) + (if data.idNum.Some? then [data.idNum.value] else [])
        && resultMeta == old(resultMeta) + [AssignResult(data)]
        && result == old(result) + Expansion(data, parseInt)
      ensures idList == old(idList) && rankList == old(rankList)
      ensures allowWork == old(allowWork) && quickDownload == old(quickDownload)
      ensures notAutoDownload == old(notAutoDownload)
      ensures pageTitle == old(pageTitle) && pageTag == old(pageTag)
    {
      if data.idNum.Some? && data.idNum.value in resultIDList {
        return;
      }
      if data.idNum.Some? {
        resultIDList := resultIDList + [data.idNum.value];
      }
      var merged := AssignResult(data);
      resultMeta := resultMeta + [merged];
      if merged.workType == NovelType {
        result := result + [merged];
      } else {
        AppendPages(merged, parseInt);
      }
    }

    /** The `for` loop of `addResult`: appends one record per image of `base` */
    method AppendPages(base: Result, parseInt: string -> int)
      modifies this`result
      ensures result == old(result) + Pages(base, parseInt)
    {
      ghost var pages := Pages(base, parseInt);
      var i := 0;
      while i < base.dlCount
        invariant 0 <= i <= Count(base.dlCount)
        invariant result == old(result) + pages[..i]
      {
        var page := PageRecord(base, i, parseInt);
        assert pages[i] == page;
        assert pages[..i + 1] == pages[..i] + [page];
        result := result + [page];
        i := i + 1;
      }
      assert pages[..Count(base.dlCount)] == pages;
    }

    /** `rankList[index]`: `None` stands for `undefined` */
    function GetRankList(index: string): (r: Option<string>)
      reads this
      ensures r.Some? <==> index in rankList
      ensures r.Some? ==> r.value == rankList[index]
    {
      if index in rankList then Some(rankList[index]) else None
    }

    method SetRankList(id: string, rank: string)
      modifies this
      ensures GetRankList(id) == Some(rank)
      ensures forall k :: k != id ==> GetRankList(k) == old(GetRankList(k))
      ensures rankList.Keys == old(rankList.Keys) + {id}
      ensures idList == old(idList) && resultMeta == old(resultMeta)
      ensures resultIDList == old(resultIDList) && result == old(result)
      ensures allowWork == old(allowWork) && quickDownload == old(quickDownload)
      ensures notAutoDownload == old(notAutoDownload)
      ensures pageTitle == old(pageTitle) && pageTag == old(pageTag)
    {
      rankList := rankList[id := rank];
    }

    /** Empties every result collection and the rank map; the state flags stay */
    method ResetResult()
      modifies this
      ensures resultMeta == [] && resultIDList == [] && result == [] && idList == [] && rankList == map[]
      ensures allowWork == old(allowWork) && quickDownload == old(quickDownload)
      ensures notAutoDownload == old(notAutoDownload)
      ensures pageTitle == old(pageTitle) && pageTag == old(pageTag)
    {
      resultMeta := [];
      resultIDList := [];
      result := [];
      idList := [];
      rankList := map[];
    }

    /** Re-allows work and cancels quick download; `notAutoDownload` is left alone */
    method ResetStates()
      modifies this
      ensures allowWork && !quickDownload
      ensures notAutoDownload == old(notAutoDownload)
      ensures idList == old(idList) && resultMeta == old(resultMeta)
      ensures resultIDList == old(resultIDList) && result == old(result) && rankList == old(rankList)
      ensures pageTitle == old(pageTitle) && pageTag == old(pageTag)
    {
      allowWork := true;
      quickDownload := false;
    }

    /** Runs the listeners the constructor registers for `e`, in registration order */
    method Handle(e: Event)
      modifies this
      ensures allowWork == (if e == DownloadComplete then true else AllowWorkAfter(e).GetOr(old(allowWork)))
      ensures quickDownload == (if e == DownloadComplete then false else old(quickDownload))
      ensures notAutoDownload == old(notAutoDownload)
      ensures e == CrawlStart ==>
        resultMeta == [] && resultIDList == [] && result == [] && idList == [] && rankList == map[]
      ensures e != CrawlStart ==>
        && resultMeta == old(resultMeta) && resultIDList == old(resultIDList) && result == old(result)
        && idList == old(idList) && rankList == old(rankList)
      ensures pageTitle == old(pageTitle) && pageTag == old(pageTag)
    {
      match AllowWorkAfter(e) {
        case Some(b) => allowWork := b;
        case None =>
      }
      if e == CrawlStart {
        ResetResult();
      }
      if e == DownloadComplete {
        ResetStates();
      }
    }
  }
}
