# Gold volume scraper, modelled in Dafny

This project models `gold-scraper/gold_scraper.py`, a one-shot job. It reads
the traded volume of the gold future from the CNBC quote page and stores it in
the `investing_gold` table of a Supabase database through its REST endpoint.
The script has no loops and no mutable state, so the model is made of
functions and lemmas over values:

- `Text` (`text.dfy`) models the string operations of the cleaner:
  `str.replace(",", "")`, `str.strip()` and `str.isdigit()`.
- `Volume` (`volume.dfy`) models `scrape_gold_volume`. Its core is the cleaner
  that takes the text of the `QuoteStrip-volume` element and yields a volume or
  nothing. The module also gives an independent description of the texts the
  cleaner accepts: `VolumeLayout`, with `KeepDigits` as the value it yields.
  It proves that the cleaner accepts exactly those texts.
- `Calendar` (`calendar.dfy`) models `is_business_day` over an explicit
  weekday. It also models how `datetime.now(timezone.utc).weekday()` derives
  that weekday from an instant. This is how the job's gate follows from the
  instant the job is started at: it is skipped exactly on UTC Saturdays and
  Sundays, and the gate is open on five of any seven consecutive UTC days.
- `Supabase` (`supabase.dfy`) models `send_to_supabase`:
  - the headers, the payload and the request it builds;
  - the status rule: 200 and 201 mean stored;
  - the guarantee that it never raises.
- `GoldJob` (`job.dfy`) models `scrape_gold_data`. The business-day gate comes
  first, then the scrape, then at most one record handed to the sender.

The outside world is an input:
- what the page fetch and the HTML parse produced (`Volume.FetchOutcome`);
- the UTC weekday;
- the capture time as a formatted string;
- the `SUPABASE_URL`/`SUPABASE_KEY` configuration;
- what the POST returned (`post: Request -> PostResult`).

Some consequences of the code:
- The cleaner rejects a decimal point. It does not recognise a decimal
  comma: every comma is deleted, so "1,5" is accepted as "15", a value
  scaled up by a power of ten (`Volume.AcceptsGroupedThousands` covers any
  two digit groups joined by a comma). A volume is a non-empty run of digits
  once the commas are deleted and the ends trimmed.
- The gate looks only at the UTC weekday, never at the time of day.
- Every insert carries three headers: the API key, the JSON content type,
  and `Prefer: return=minimal`.
- An empty configuration does not stop the job from posting:
  - When `SUPABASE_URL` is empty, line 29 builds the bare path
    `/rest/v1/investing_gold`. That path has no scheme, so `requests` raises,
    and the sender reports an error.
  - When only `SUPABASE_KEY` is empty, the POST reaches the configured host
    with an empty `apikey`. The server answers, and a status other than 200
    or 201 is reported as refused.
  - In the model, `post` is a free input, so none of this is derived from
    the configuration. Every possible answer, and every exception, is
    covered by the sender's contract.

The capture time is local wall-clock time (`datetime.now()`), while the gate
uses the UTC weekday. The two inputs are independent in the model, as they are
in the script.

## Model

| member | source | states |
|---|---|---|
| Text.IsSpace | gold-scraper/gold_scraper.py:70 | the characters `strip()` removes, which are Python's `isspace` set; none of them is a digit or a comma |
| Text.IsDigitString | gold-scraper/gold_scraper.py:73 | `isdigit()`: false for the empty string; a string that passes has no comma and no whitespace at either end |
| Text.Remove | gold-scraper/gold_scraper.py:70 | `replace(",", "")`: the result is no longer than the text and no longer contains the character |
| Text.RemoveMembers | gold-scraper/gold_scraper.py:70 | deleting a character keeps every other character of the text and adds none |
| Text.RemoveAppend | gold-scraper/gold_scraper.py:70 | deleting commas works piecewise over a concatenation |
| Text.RemoveAbsent | gold-scraper/gold_scraper.py:70 | deleting a character that does not occur leaves the text unchanged |
| Text.RemoveSplit | gold-scraper/gold_scraper.py:70 | every cut of the comma-free text comes from a cut of the original text |
| Text.LStrip | gold-scraper/gold_scraper.py:70 | the leading-whitespace half of `strip()`: the result is a suffix, what it drops is all whitespace, and it does not start with whitespace |
| Text.RStrip | gold-scraper/gold_scraper.py:70 | the trailing half: the result is a prefix, what it drops is all whitespace, and it does not end with whitespace |
| Text.Strip | gold-scraper/gold_scraper.py:70 | `strip()`: drops whitespace only, from both ends, and leaves text that neither starts nor ends with whitespace |
| Text.LStripIdempotent | gold-scraper/gold_scraper.py:70 | stripping leading whitespace twice equals stripping it once, and `strip()` after it gives the same result as `strip()` alone |
| Text.LStripAfterPadding | gold-scraper/gold_scraper.py:70 | leading whitespace before text that does not start with whitespace is exactly what `lstrip()` removes |
| Text.RStripBeforePadding | gold-scraper/gold_scraper.py:70 | trailing whitespace after text that does not end with whitespace is exactly what `rstrip()` removes |
| Text.StripOfPadded | gold-scraper/gold_scraper.py:70 | `strip()` of whitespace + m + whitespace is m, whenever m does not start or end with whitespace |
| Text.KeepDigits | gold-scraper/gold_scraper.py:73 | reference for the accepted value: only digits, never longer than the text |
| Text.KeepDigitsMembers | gold-scraper/gold_scraper.py:73 | keeping the digits keeps every digit that occurs and nothing else |
| Text.KeepDigitsAppend | gold-scraper/gold_scraper.py:73 | keeping the digits works piecewise over a concatenation |
| Text.KeepDigitsOfDigitsAndCommas | gold-scraper/gold_scraper.py:70-73 | on text made of digits and commas, keeping the digits is the same as deleting the commas |
| Volume.CleanVolume | gold-scraper/gold_scraper.py:64-78 | any accepted volume is a non-empty string of digits (`isdigit`) |
| Volume.ScrapeVolume | gold-scraper/gold_scraper.py:40-85 | a volume is returned only from a located element, and it is a digit string; a failed fetch or a missing element gives nothing, and nothing raises |
| Volume.PaddingRemoved | gold-scraper/gold_scraper.py:70 | text made only of whitespace and commas is exactly the text that is all whitespace once its commas are deleted |
| Volume.BodyRemoved | gold-scraper/gold_scraper.py:70-73 | text made of digits and commas, with at least one digit, is exactly the text that passes `isdigit` once its commas are deleted |
| Volume.LayoutAccepted | gold-scraper/gold_scraper.py:70-75 | a text laid out as padding, digits and commas, padding is accepted, with its digits in order as the volume |
| Volume.LayoutCleansToBody | gold-scraper/gold_scraper.py:70-75 | such a text cleans to its body with the commas deleted |
| Volume.LayoutDigitsAreBodyDigits | gold-scraper/gold_scraper.py:70-75 | the digits of such a text are those of its body |
| Volume.NoDigitsInPadding | gold-scraper/gold_scraper.py:70 | padding holds no digit |
| Volume.AcceptedHasLayout | gold-scraper/gold_scraper.py:70-78 | every accepted text has that layout |
| Volume.StripsToDigitsHasLayout | gold-scraper/gold_scraper.py:70-73 | a text whose comma-free, stripped form is a digit string has that layout |
| Volume.LeadingPadding | gold-scraper/gold_scraper.py:70 | the part of the text that becomes the leading whitespace once commas are deleted is padding |
| Volume.BodyThenPadding | gold-scraper/gold_scraper.py:70-73 | the rest of the text splits into a body and trailing padding |
| Volume.LayoutFromParts | gold-scraper/gold_scraper.py:70-73 | padding, body and padding at consecutive positions form a layout |
| Volume.CleanVolumeAcceptsExactlyLayouts | gold-scraper/gold_scraper.py:66-78 | the cleaner accepts a text exactly when the text has the layout (both directions), and the volume is the text's digits in order |
| Volume.CleanVolumeIdempotent | gold-scraper/gold_scraper.py:70-75 | cleaning an accepted volume again returns it unchanged |
| Volume.LayoutAt | gold-scraper/gold_scraper.py:70-73 | a position in the padding holds whitespace or a comma; a position in the body holds a digit or a comma |
| Volume.AcceptsGroupedThousands | gold-scraper/gold_scraper.py:70-75 | two digit groups joined by a comma are accepted as the groups concatenated: "228,285" as "228285", and a decimal comma alike, "1,5" as "15" |
| Volume.AcceptedCharacter | gold-scraper/gold_scraper.py:70-78 | every character of an accepted text is a digit, a comma or whitespace |
| Volume.RejectsForeignCharacter | gold-scraper/gold_scraper.py:73-78 | a text holding any other character ("1.5", "N/A") gives no volume |
| Volume.AcceptedBetweenDigits | gold-scraper/gold_scraper.py:70-78 | in an accepted text, whatever lies between two digits is a digit or a comma |
| Volume.RejectsSpaceBetweenDigits | gold-scraper/gold_scraper.py:73-78 | whitespace between two digits ("1 234") gives no volume |
| Volume.AcceptedHasDigit | gold-scraper/gold_scraper.py:73 | an accepted text holds a digit |
| Volume.RejectsTextWithoutDigits | gold-scraper/gold_scraper.py:73-78 | a text without digits, the empty text included, gives no volume |
| Volume.CommaJoined | gold-scraper/gold_scraper.py:70 | deleting the one comma that joins two comma-free texts concatenates them |
| Volume.DigitsHaveNoComma | gold-scraper/gold_scraper.py:70-75 | a digit string, and hence any returned volume, contains no comma |
| Volume.DigitsAreTrimmedAlready | gold-scraper/gold_scraper.py:70-75 | `strip()` leaves a digit string unchanged |
| Calendar.IsBusinessDay | gold-scraper/gold_scraper.py:127-130 | the gate holds exactly on weekdays other than Saturday (5) and Sunday (6) |
| Calendar.NextWeekday | gold-scraper/gold_scraper.py:127 | weekdays follow one another, with Monday (0) after Sunday (6) |
| Calendar.UtcWeekday | gold-scraper/gold_scraper.py:126-127 | the days numbered 0, 7, 14, … from the epoch are Thursdays |
| Calendar.KnownInstants | gold-scraper/gold_scraper.py:126-127 | the epoch was a Thursday and 2024-01-01T00:00:00Z a Monday |
| Calendar.SameDaySameWeekday | gold-scraper/gold_scraper.py:126-127 | every instant of a UTC day has the same weekday |
| Calendar.NextDayNextWeekday | gold-scraper/gold_scraper.py:126-127 | 86400 seconds later the weekday is the next one |
| Calendar.BusinessDaysFrom | gold-scraper/gold_scraper.py:129-130 | among n days there are at most n business days |
| Calendar.FiveBusinessDaysAWeek | gold-scraper/gold_scraper.py:129-130 | any seven consecutive days hold exactly five days on which the job runs |
| Calendar.WholeWeekAddsFive | gold-scraper/gold_scraper.py:129-130 | adding a whole week to any stretch of days adds exactly five business days |
| Calendar.BusinessDaysInWeeks | gold-scraper/gold_scraper.py:129-130 | k whole weeks hold exactly 5k business days |
| Calendar.GateOpenDays | gold-scraper/gold_scraper.py:126-130 | counting day by day from an instant, the gate opens on as many days as the weekdays of those days allow |
| Calendar.GateOpensFiveDaysAWeek | gold-scraper/gold_scraper.py:126-130 | from any starting instant, the gate opens on exactly five of the next seven UTC days |
| Supabase.IsSuccessStatus | gold-scraper/gold_scraper.py:32 | `status_code in [200, 201]`: 200 and 201 succeed; any success is a 2xx status, but 202 and 204 are not successes |
| Supabase.Headers | gold-scraper/gold_scraper.py:18-22 | exactly the three headers: the API key, JSON content, and minimal return |
| Supabase.Payload | gold-scraper/gold_scraper.py:24-27 | the payload exists exactly when the record has both fields; it has exactly the `timestamp` and `volume` fields, copied unchanged |
| Supabase.InsertRequest | gold-scraper/gold_scraper.py:29-30 | the POST goes to the configured URL plus `/rest/v1/investing_gold`, with those headers, that payload and a 10-second timeout |
| Supabase.Classify | gold-scraper/gold_scraper.py:32-36 | a status counts as stored exactly when it is 200 or 201; every other status is reported as refused with its code |
| Supabase.SendToSupabase | gold-scraper/gold_scraper.py:15-38 | it never raises; the request is issued exactly when the payload can be built; an error is reported exactly when the payload is missing a field or the POST raised; a stored report comes only from a 200/201 answer |
| Supabase.PayloadOfRecord | gold-scraper/gold_scraper.py:24-27 | for a record with exactly the two fields, the payload is the record itself |
| Supabase.AnswerDecidesDelivery | gold-scraper/gold_scraper.py:30-36 | once the server answers, the outcome depends on the status code alone |
| GoldJob.Record | gold-scraper/gold_scraper.py:110-113 | the record has exactly the capture time and the volume |
| GoldJob.IsFalsy | gold-scraper/gold_scraper.py:103 | `not volume`: `None` is falsy; a volume the scraper can return (a digit string) never is |
| GoldJob.ScrapeGoldData | gold-scraper/gold_scraper.py:87-119 | the run is skipped exactly on a non-business day; it ends without a volume exactly when the scrape gave nothing (the `not volume` test); otherwise it hands the sender the record of the capture time and the scraped volume |
| GoldJob.Sends | gold-scraper/gold_scraper.py:110-115 | a run sends at most once, sends exactly when it produced a record, and that one send is the report of posting that record |
| GoldJob.GateIsCheckedFirst | gold-scraper/gold_scraper.py:93-95 | on Saturday and Sunday the run is the same whatever the page holds, and nothing is sent |
| GoldJob.SentExactlyForWellFormedVolume | gold-scraper/gold_scraper.py:93-115 | a record is sent exactly on a business day whose volume element has the accepted layout, and it carries that element's digits and the capture time |
| GoldJob.SentRecordIsPosted | gold-scraper/gold_scraper.py:110-115 | a sent record is always posted, and the posted payload is the record unchanged |
| GoldJob.SkippedExactlyOnUtcWeekends | gold-scraper/gold_scraper.py:121-130 | started at an instant, the gate of lines 93-95 skips the run exactly when that instant falls on a UTC Saturday or Sunday |
| GoldJob.StoredExactlyOnSuccessStatus | gold-scraper/gold_scraper.py:32-38 | a sent record is stored exactly when the server answers 200 or 201, and an error is reported exactly when the POST raised |

## Left out

- The network, the HTML parser, the clock, the environment and logging are left out. `requests.get`/`requests.post`, BeautifulSoup, `datetime.now()`, `strftime`, `os.environ` and `print` become the inputs listed above.
- Text.IsDigitString: a digit is ASCII `0`-`9`. Python's `str.isdigit` also accepts other Unicode digits, such as Arabic-Indic digits and superscripts.
- Volume.CleanVolume: a digit is ASCII `0`-`9`. Python's `str.isdigit` also accepts other Unicode digits, such as Arabic-Indic digits and superscripts, so the model rejects some texts the script accepts. The whitespace `strip()` removes is modelled as Python's full `str.isspace` set.
- `get_text()` joins the texts of the element's descendants; the model takes the joined text as its input. A located element is always truthy, so `if volume_element` is the choice between `ElementMissing` and `ElementText`.
- The module-level warning about missing configuration, at lines 12-13, only logs.
- The `except` of `scrape_gold_data`, at lines 117-119, is not modelled: in the model nothing inside its `try` can raise. The scraper and the sender catch everything themselves, and the remaining statements only log.
- The `response.text` logged for a refused status is not modelled.
- The other scripts of the repository are not part of this model: `find_cme_api.py`, `find_api.py`, `deep_search.py`, `debug.py`, `debug2.py` and `scraper.py`. They are exploratory or wrap an external crawler.
