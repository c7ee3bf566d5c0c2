/** Saving one page: the output file name, the fixed column header, and the
    conversion of the records before they are handed to the CSV writer. */
module Csv {
  import opened Outcomes
  import opened Strings
  import opened Flatten

  /** One column of the CSV header: the record field it shows and its title. */
  datatype Column = Column(id: string, title: string)

  const Header: seq<Column> := [
    Column("timestamp", "Timestamp"),
    Column("ip", "IP"),
    Column("userAgent", "User Agent"),
    Column("platformOrigin", "Platform Origin"),
    Column("campaignName", "Campaign Name"),
    Column("source", "Source"),
    Column("url", "URL"),
    Column("device", "Device"),
    Column("detection", "Detection"),
    Column("threatGroup", "Threat Group"),
    Column("term", "Term"),
    Column("platform", "Platform"),
    Column("medium", "Medium"),
    Column("content", "Content"),
    Column("gtmEvents", "GTM Events")
  ]

  /** The field names of the header's columns, in column order. */
  function Ids(columns: seq<Column>): seq<string>
  {
    seq(|columns|, i requires 0 <= i < |columns| => columns[i].id)
  }

  /** `page_${page}.csv`; the rendering of `page` agrees with JavaScript's for the
      page numbers 1 to 5 the script uses. */
  function FileName(page: nat): string
  {
    "page_" + NatToString(page) + ".csv"
  }

  /** The page number can be read back from the file name. */
  lemma FileNameNamesPage(page: nat)
    ensures var name := FileName(page);
      |name| > 9 && name[..5] == "page_" && name[|name| - 4..] == ".csv"
      && IsDecimal(name[5..|name| - 4]) && ParseNat(name[5..|name| - 4]) == page
  {
    var name := FileName(page);
    assert name[5..|name| - 4] == NatToString(page);
    ParseNatToString(page);
  }

  /** Different pages are saved to different files, so no page overwrites another. */
  lemma FileNamesDistinct(p: nat, q: nat)
    requires p != q
    ensures FileName(p) != FileName(q)
  {
    FileNameNamesPage(p);
    FileNameNamesPage(q);
  }

  /** The body of a data response: `data.data` is the page's array of records,
      or it is something else (absent, an object, a string, ...). */
  datatype Body = Records(data: seq<Record>) | NotAList

  /** What is handed to the CSV writer: the file, its header and its rows. */
  datatype CsvWrite = CsvWrite(path: string, header: seq<Column>, rows: seq<Record>)

  /** The result of saving a page, given what the writer does (`written`). The
      records are converted before the writer runs, so a body without an array of
      records throws before any write; a write failure is thrown as it is. */
  function CsvFor(page: nat, body: Body, written: Outcome<()>): (r: Outcome<CsvWrite>)
    ensures r.Ok? <==> body.Records? && written.Ok?
    ensures r.Ok? ==> r.value.path == FileName(page) && r.value.header == Header
    ensures r.Ok? ==> r.value.rows == FlattenAll(body.data)
    ensures body.NotAList? ==> r == Err(NotAnArray)
    ensures body.Records? && written.Err? ==> r == Err(written.error)
  {
    if body.NotAList? then Err(NotAnArray)
    else if written.Err? then Err(written.error)
    else Ok(CsvWrite(FileName(page), Header, FlattenAll(body.data)))
  }

  /** Saves one page: the records of the body are converted in place, then written
      under the page's file name. */
  method SaveDataToCsv(page: nat, body: Body, written: Outcome<()>) returns (r: Outcome<CsvWrite>)
    ensures r == CsvFor(page, body, written)
  {
    var filePath := FileName(page);
    if body.NotAList? {
      return Err(NotAnArray);
    }
    var data := new Record[|body.data|](i requires 0 <= i < |body.data| => body.data[i]);
    assert data[..] == body.data;
    var records := FlattenRecords(data);
    if written.Err? {
      return Err(written.error);
    }
    return Ok(CsvWrite(filePath, Header, records));
  }

  /** A sample page: one record whose events are `["view", "click"]`
      is written to page_1.csv as one row with the events `"view,click"`. */
  lemma SamplePage()
    ensures CsvFor(1, Records([map["timestamp" := Str("t"), "ip" := Str("1.2.3.4"), GtmEvents := Arr(["view", "click"])]]), Ok(()))
         == Ok(CsvWrite("page_1.csv", Header, [map["timestamp" := Str("t"), "ip" := Str("1.2.3.4"), GtmEvents := Str("view,click")]]))
  {
    var r: Record := map["timestamp" := Str("t"), "ip" := Str("1.2.3.4"), GtmEvents := Arr(["view", "click"])];
    SampleRecord();
    assert FlattenAll([r]) == [FlattenRecord(r)];
    assert DigitChar(1) == '1';
    assert FileName(1) == "page_1.csv";
  }
}
