/** The main routine of the script: authenticate once, build the date window
    and the field list, then fetch and save pages 1 to 5 in order; the first
    error ends the run and is caught, not thrown on. */
module Pipeline {
  import opened Outcomes
  import opened Strings
  import opened Flatten
  import opened Retry
  import opened Csv

  /** The fields requested from the API. */
  const Fields: seq<string> := [
    "timestamp", "ip", "userAgent", "platformOrigin", "campaignName", "source", "url",
    "device", "detection", "threatGroup", "term", "platform", "medium", "content", "gtmEvents"
  ]

  /** The number of pages a run fetches. */
  const LastPage := 5

  /** The fields requested are exactly the columns written, in the same order,
      fifteen of them, none twice. */
  lemma HeaderMatchesFields()
    ensures Ids(Header) == Fields
    ensures |Fields| == 15
    ensures forall i, j :: 0 <= i < j < |Fields| ==> Fields[i] != Fields[j]
  {
  }

  datatype DateWindow = DateWindow(startDate: string, endDate: string)

  /** The calendar day of an ISO timestamp: `iso.split('T')[0]`. */
  function DayOf(iso: string): string
  {
    Split(iso, 'T')[0]
  }

  /** The window of one day; `iso` is `threeDaysAgo.toISOString()`. */
  function Window(iso: string): DateWindow
  {
    DateWindow(DayOf(iso) + " 00:00:00", DayOf(iso) + " 23:59:59")
  }

  /** For a timestamp `day + "T" + time`, the window runs from the first to the last
      second of `day`. */
  lemma WindowOfTimestamp(day: string, time: string)
    requires 'T' !in day
    ensures Window(day + "T" + time) == DateWindow(day + " 00:00:00", day + " 23:59:59")
  {
    SplitAtFirstSeparator(day, 'T', time);
  }

  /** Both ends of the window lie on the same day; they differ only in the time. */
  lemma WindowIsOneDay(iso: string)
    ensures var w, d := Window(iso), DayOf(iso);
      |w.startDate| == |w.endDate| == |d| + 9
      && w.startDate[..|d|] == w.endDate[..|d|] == d
      && w.startDate[|d|..] == " 00:00:00" && w.endDate[|d|..] == " 23:59:59"
  {
  }

  /** The window for a run three days after 2024-06-07. */
  lemma SampleWindow()
    ensures Window("2024-06-07" + "T" + "09:30:00.000Z") == DateWindow("2024-06-07 00:00:00", "2024-06-07 23:59:59")
  {
    var day, time := "2024-06-07", "09:30:00.000Z";
    assert forall i :: 0 <= i < |day| ==> day[i] != 'T';
    WindowOfTimestamp(day, time);
  }

  /** The body of a data request, with the token sent alongside. */
  datatype Request = Request(token: string, startDate: string, endDate: string, fields: seq<string>, page: nat)

  /** What happened to one page: the request sent, the fetch (with its attempts),
      and the save, which is only attempted after a successful fetch. */
  datatype PageResult = PageResult(request: Request, fetch: Fetch<Body>, saved: Option<Outcome<CsvWrite>>)
  {
    /** The error this page threw, if any. */
    function Failure(): Option<Error>
    {
      if fetch.result.Err? then Some(fetch.result.error)
      else if saved.Some? && saved.value.Err? then Some(saved.value.error)
      else None
    }
  }

  /** One iteration of the page loop: fetch the page with the default retry, then,
      if that returned, save it. */
  function RunPage(token: string, w: DateWindow, page: nat, responses: seq<Outcome<Body>>, written: Outcome<()>): (r: PageResult)
    requires |responses| >= Budget(DefaultRetries)
    ensures r.request == Request(token, w.startDate, w.endDate, Fields, page)
    ensures 1 <= r.fetch.attempts <= 2
    ensures r.saved.Some? <==> r.fetch.result.Ok?
    ensures r.Failure().None? <==> r.fetch.result.Ok? && r.fetch.result.value.Records? && written.Ok?
  {
    var fetch := GetCheqData(responses, DefaultRetries);
    PageResult(Request(token, w.startDate, w.endDate, Fields, page), fetch,
               if fetch.result.Ok? then Some(CsvFor(page, fetch.result.value, written)) else None)
  }

  /** `saveCheqData`. The oracles: `auth` is what the authentication call returns
      or throws, `iso` the ISO timestamp three days before the run,
      `responses[p - 1]` the answers to the attempts at page `p`, and
      `writes[p - 1]` what the CSV writer does with page `p`. The result lists the
      pages handled, in order, and the error that was caught, if any. */
  method SaveCheqData(auth: Outcome<string>, iso: string, responses: seq<seq<Outcome<Body>>>, writes: seq<Outcome<()>>)
    returns (pages: seq<PageResult>, caught: Option<Error>)
    requires |responses| >= LastPage && |writes| >= LastPage
    requires forall p :: 0 <= p < LastPage ==> |responses[p]| >= Budget(DefaultRetries)
    ensures auth.Err? ==> pages == [] && caught == Some(auth.error)
    ensures auth.Ok? ==> 1 <= |pages| <= LastPage
    ensures auth.Ok? ==> forall i :: 0 <= i < |pages| ==>
      pages[i] == RunPage(auth.value, Window(iso), i + 1, responses[i], writes[i])
    ensures forall i :: 0 <= i < |pages| - 1 ==> pages[i].Failure().None?
    ensures auth.Ok? ==> caught == pages[|pages| - 1].Failure()
    ensures caught.None? <==> auth.Ok? && |pages| == LastPage && pages[LastPage - 1].Failure().None?
  {
    pages, caught := [], None;
    if auth.Err? {
      caught := Some(auth.error);
      return;
    }
    var token := auth.value;
    var w := Window(iso);
    var page := 1;
    while page <= LastPage
      invariant 1 <= page <= LastPage + 1
      invariant |pages| == page - 1
      invariant forall i :: 0 <= i < |pages| ==> pages[i] == RunPage(token, w, i + 1, responses[i], writes[i])
      invariant forall i :: 0 <= i < |pages| ==> pages[i].Failure().None?
    {
      var request := Request(token, w.startDate, w.endDate, Fields, page);
      var fetch := GetCheqData(responses[page - 1], DefaultRetries);
      if fetch.result.Err? {
        pages := pages + [PageResult(request, fetch, None)];
        caught := Some(fetch.result.error);
        return;
      }
      var saved := SaveDataToCsv(page, fetch.result.value, writes[page - 1]);
      pages := pages + [PageResult(request, fetch, Some(saved))];
      if saved.Err? {
        caught := Some(saved.error);
        return;
      }
      page := page + 1;
    }
  }

  /** A page whose first request fails and whose retry returns records is saved,
      after two requests, to its own file with the records converted. */
  lemma RetrySavesPage(token: string, w: DateWindow, page: nat, e: Error, rs: seq<Record>, rest: seq<Outcome<Body>>)
    ensures var r := RunPage(token, w, page, [Err(e), Ok(Records(rs))] + rest, Ok(()));
      r.Failure().None? && r.fetch.attempts == 2
      && r.saved == Some(Ok(CsvWrite(FileName(page), Header, FlattenAll(rs))))
  {
  }

  /** A page whose two requests both fail throws the second error and saves nothing. */
  lemma TwoFailuresAbortPage(token: string, w: DateWindow, page: nat, e1: Error, e2: Error, rest: seq<Outcome<Body>>, written: Outcome<()>)
    ensures var r := RunPage(token, w, page, [Err(e1), Err(e2)] + rest, written);
      r.Failure() == Some(e2) && r.fetch.attempts == 2 && r.saved.None?
  {
  }
}
