/**
 * `scrape_gold_data`: one run of the job. It checks the business-day gate
 * first, then scrapes the volume, and hands a single record holding the
 * capture time and the volume to the sender.
 *
 * The weekday, what the page fetch gave, the capture time as
 * `strftime("%Y-%m-%d %H:%M:%S")` formats it, the configuration and the
 * POST are inputs.
 */
module GoldJob {
  import opened Options
  import opened Text
  import opened Volume
  import opened Calendar
  import opened Supabase

  /** How a run ended. */
  datatype JobRun =
    | Skipped                                           // not a business day: nothing fetched
    | NoVolume                                          // the page gave no usable volume
    | Sent(record: map<string, string>, report: SendReport) // one record handed to the sender

  /** The record of one capture: its time and the volume read. */
  function Record(timestamp: string, volume: string): (r: map<string, string>)
    ensures r.Keys == {"timestamp", "volume"}
    ensures r["timestamp"] == timestamp && r["volume"] == volume
  {
    map["timestamp" := timestamp, "volume" := volume]
  }

  /**
   * Python's `not volume` on what the scraper returned: `None` or the empty
   * string. A volume the scraper returns is never falsy.
   */
  function IsFalsy(volume: Option<string>): (b: bool)
    ensures volume.None? ==> b
    ensures volume.Some? && IsDigitString(volume.value) ==> !b
  {
    volume.None? || volume.value == ""
  }

  function ScrapeGoldData(
    weekday: Weekday, fetched: FetchOutcome, timestamp: string,
    cfg: Config, post: Request -> PostResult): (run: JobRun)
    ensures run.Skipped? <==> !IsBusinessDay(weekday)
    ensures run.NoVolume? <==> IsBusinessDay(weekday) && ScrapeVolume(fetched).None?
    ensures run.Sent? ==>
      && ScrapeVolume(fetched).Some?
      && run.record.Keys == {"timestamp", "volume"}
      && run.record["timestamp"] == timestamp
      && run.record["volume"] == ScrapeVolume(fetched).value
      && run.report == SendToSupabase(cfg, run.record, post)
  {
    if !IsBusinessDay(weekday) then Skipped
    else
      var volume := ScrapeVolume(fetched);
      if IsFalsy(volume) then NoVolume
      else
        var data := Record(timestamp, volume.value);
        Sent(data, SendToSupabase(cfg, data, post))
  }

  /** The reports of the sends a run issued, in order. */
  function Sends(run: JobRun): (sends: seq<SendReport>)
    ensures |sends| <= 1
    ensures |sends| == 1 <==> run.Sent?
    ensures run.Sent? ==> sends == [run.report]
  {
    if run.Sent? then [run.report] else []
  }

  /**
   * The gate comes first: on a Saturday or a Sunday the run is skipped
   * whatever the page would have shown, and nothing is sent.
   */
  lemma GateIsCheckedFirst(
    weekday: Weekday, fetched: FetchOutcome, other: FetchOutcome, timestamp: string,
    cfg: Config, post: Request -> PostResult)
    requires weekday == Saturday || weekday == Sunday
    ensures ScrapeGoldData(weekday, fetched, timestamp, cfg, post)
         == ScrapeGoldData(weekday, other, timestamp, cfg, post)
    ensures Sends(ScrapeGoldData(weekday, fetched, timestamp, cfg, post)) == []
  {
  }

  /**
   * A record is sent exactly on a business day whose page shows a volume
   * element of the accepted shape, and it carries that element's digits and
   * the capture time.
   */
  lemma SentExactlyForWellFormedVolume(
    weekday: Weekday, fetched: FetchOutcome, timestamp: string,
    cfg: Config, post: Request -> PostResult)
    ensures ScrapeGoldData(weekday, fetched, timestamp, cfg, post).Sent? <==>
      IsBusinessDay(weekday) && fetched.ElementText? && WellFormedVolumeText(fetched.text)
    ensures ScrapeGoldData(weekday, fetched, timestamp, cfg, post).Sent? ==>
      ScrapeGoldData(weekday, fetched, timestamp, cfg, post).record
        == Record(timestamp, KeepDigits(fetched.text))
  {
    var run := ScrapeGoldData(weekday, fetched, timestamp, cfg, post);
    if IsBusinessDay(weekday) && fetched.ElementText? {
      var volume := CleanVolume(fetched.text);
      assert ScrapeVolume(fetched) == volume;
      CleanVolumeAcceptsExactlyLayouts(fetched.text);
      assert run.Sent? <==> volume.Some?;
    } else {
      assert !run.Sent?;
    }
  }

  /**
   * The sender is handed a complete record, so it always issues its POST,
   * and the payload posted is the record unchanged.
   */
  lemma SentRecordIsPosted(
    weekday: Weekday, fetched: FetchOutcome, timestamp: string,
    cfg: Config, post: Request -> PostResult)
    requires ScrapeGoldData(weekday, fetched, timestamp, cfg, post).Sent?
    ensures
      var run := ScrapeGoldData(weekday, fetched, timestamp, cfg, post);
      && run.report.request.Some?
      && run.report.request.value == InsertRequest(cfg, run.record)
      && run.report.request.value.payload == run.record
  {
    var run := ScrapeGoldData(weekday, fetched, timestamp, cfg, post);
    PayloadOfRecord(run.record);
  }

  /** Whether a sent record is stored depends only on the server's status, 200 or 201. */
  lemma StoredExactlyOnSuccessStatus(
    weekday: Weekday, fetched: FetchOutcome, timestamp: string,
    cfg: Config, post: Request -> PostResult)
    requires ScrapeGoldData(weekday, fetched, timestamp, cfg, post).Sent?
    ensures
      var run := ScrapeGoldData(weekday, fetched, timestamp, cfg, post);
      var answer := post(InsertRequest(cfg, run.record));
      && (run.report.delivery.Stored? <==> answer.Answered? && (answer.status == 200 || answer.status == 201))
      && (run.report.delivery.Errored? <==> answer.Raised?)
  {
    SentRecordIsPosted(weekday, fetched, timestamp, cfg, post);
  }

  /**
   * Started at the instant `t`, the run is skipped exactly when `t` falls on
   * a Saturday or a Sunday in UTC.
   */
  lemma SkippedExactlyOnUtcWeekends(
    t: int, fetched: FetchOutcome, timestamp: string,
    cfg: Config, post: Request -> PostResult)
    ensures ScrapeGoldData(UtcWeekday(t), fetched, timestamp, cfg, post).Skipped?
        <==> UtcWeekday(t) == Saturday || UtcWeekday(t) == Sunday
  {
  }
}
