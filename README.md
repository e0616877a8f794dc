# Procurement Intelligence Agent — verified model of its decision logic

The Procurement Intelligence Agent is a Flask service that asks an LLM agent to
recommend a procurement action from live forex rates, the weather at the shipping
location and an uploaded policy PDF. Under the HTTP, LLM and retrieval plumbing of
`main.py` sit a few deterministic pieces, modelled here in Dafny:

- **Forex tool** (`forex.dfy`, module `Forex`): from the provider's Tether quotes,
  the INR-per-unit rate of each of USD, EUR, GBP, JPY, AUD, CAD and CHF whose quote is
  present and positive, in that order; the best (first least) and worst (first
  greatest) currency as Python's `min`/`max` pick them; the savings percentage; and
  the report lines sorted by rate (stable) with their BEST RATE / HIGHEST markers.
  The three failure returns (no Tether data, no INR quote, no usable currency) are
  outcomes of their own. The loops that fill the rates dictionary and build the
  report lines are methods with loop invariants, proved equal to the specification
  function `ForexReport`, about which the lemmas are stated.
- **Weather tool** (`weather.dfy`, module `Weather`): the three-way shipping
  assessment (wind above 15 m/s first, then a temperature below 0 or above 45 °C),
  and which of the three answers the tool gives for a provider answer: `Conditions`;
  the "normal conditions" fallback for a non-200 status whose body decodes; the
  "moderate conditions" fallback for an exception, including a body that does not
  decode, whatever the status.
- **Policy state** (`policy.dfy`, module `Policy`): the global `qa_chain` /
  `policy_loaded` pair as the class `PolicyStore`, changed only by an accepted
  upload (a file part with a non-empty name ending in `.pdf`, case-insensitively);
  `query_policy` with its fixed "not loaded" reply; the tool list and policy step of
  `analyze`. The built index is opaque; what the build comes to is an input: an
  index, `None` when the build logged and swallowed its error, or an exception raised
  out of it.
- **Decision report** (`report.dfy`, module `Report`): the text of
  `download_report` with the query, location and decision embedded verbatim, the
  `%Y-%m-%d %H:%M:%S` date line and the `%Y%m%d_%H%M%S` file-name stamp, each proved
  to read back as the clock reading it was printed from. The two clock readings the
  route takes are two parameters.

`wrappers.dfy` holds the `Option` and `Result` types.

Notable behaviours of `main.py` that the model keeps:

- An accepted upload whose index build fails still sets `policy_loaded` to true and
  answers "Policy document loaded successfully!". `create_pdf_qa_chain` catches every
  exception and returns `None` (main.py:238-240), and the route stores that `None`
  (main.py:319-320). `Policy.FailedBuildStillLoaded` shows the resulting state: the
  status says loaded, but the agent gets no policy tool.
- The route's own `except` branch (main.py:323-327) is reached only when logging the
  build error itself raises (main.py:239), for instance on a closed or non-encoding
  standard output. It then clears `policy_loaded` and keeps the previous `qa_chain`.
  `Policy.RaisedBuildUnloadsButKeepsIndex` shows the reverse mismatch: the status says
  not loaded, but the agent is still offered the policy tool over the earlier index.
- A non-200 weather status whose body decodes gives "Assuming normal conditions"; an
  exception, including a body that does not decode (main.py:178 decodes it before the
  status test at main.py:180), gives "Assuming moderate conditions".
- The INR guard is `inr_rate == 0` (main.py:100). A negative INR quote therefore
  passes and yields negative rates, so the savings bounds hold only for a positive
  INR quote.

## Model

| member | source | states |
|---|---|---|
| `Forex.ForexReport` | main.py:91-112 | The outcome is the no-Tether failure iff the response has no `tether` entry; the no-INR failure iff the INR quote is missing or zero; the no-rates failure iff the INR quote is nonzero and no listed currency has a positive quote |
| `Forex.RatesOverMembership` | main.py:104-109 | An entry is in the rates iff its currency is visited, its quote is present and positive, and its rate is INR quote / currency quote |
| `Forex.RatesOverInListOrder` | main.py:104-109 | Visiting the currencies in list order leaves the rates dictionary in list (insertion) order |
| `Forex.NonzeroRates` | main.py:107-121 | With a nonzero INR quote no rate is zero over exact reals, so the savings divisor is nonzero |
| `Forex.FirstMin` | main.py:115 | `min(rates, key=rates.get)`: an index whose rate is at most every rate and strictly below every earlier one, so ties go to the earliest entry |
| `Forex.FirstMax` | main.py:116 | `max(rates, key=rates.get)`: an index whose rate is at least every rate and strictly above every earlier one |
| `Forex.SortByRate` | main.py:127 | `sorted(..., key=rate)`: the result is a permutation of the entries (same multiset) in non-decreasing rate order |
| `Forex.SortByRateStable` | main.py:127 | The sort is stable: for entries in list order, equal rates stay in list order |
| `Forex.ReportListsQualifying` | main.py:104-109 | A currency has a report line iff its quote is present and positive, and every line shows INR quote / currency quote |
| `Forex.ReportListsEachOnce` | main.py:127-134 | No currency has two report lines |
| `Forex.ReportOrdered` | main.py:127-134 | Report lines run in non-decreasing rate, and lines of equal rate follow the fixed currency order |
| `Forex.BestAndWorst` | main.py:114-120 | The best currency qualifies and has a rate at most every computed rate; the worst one qualifies and has a rate at least every computed rate; among tied currencies both are the earliest in the list |
| `Forex.ReportMarkers` | main.py:128-133 | Exactly one line carries BEST RATE, the best currency's; a line carries HIGHEST iff it is the worst currency's and that differs from the best; at most one does |
| `Forex.SavingsInRange` | main.py:118-121 | With a positive INR quote the savings percentage lies in [0, 100) and is 0 iff the best and worst rates are equal |
| `Forex.OnlyListedQuotesMatter` | main.py:104-109 | Two responses that agree on the INR quote and on the positive quotes of the seven listed currencies give the same outcome: other keys never appear |
| `Forex.ComputeRates` | main.py:105-109 | The loop fills the rates dictionary exactly as the specification function does, for every quote map |
| `Forex.BuildLines` | main.py:127-134 | The loop gives one line per sorted entry with its currency, rate and marker (BEST before HIGHEST) |
| `Forex.GetAllForexRates` | main.py:91-142 | The imperative tool returns exactly the specified outcome for every decoded response |
| `Weather.Assess` | main.py:186-191 | Risky iff wind > 15; challenging iff wind <= 15 and temperature < 0 or > 45; suitable iff wind <= 15 and 0 <= temperature <= 45 |
| `Weather.GetWeather` | main.py:177-197 | Readings and their assessment iff status is 200 and the body holds the readings; the "normal conditions" fallback iff the status is not 200 and the body decoded; the "moderate conditions" failure otherwise, carrying the raised error; the city is always kept |
| `Weather.WindDominates` | main.py:188-189 | Any report with readings and wind above 15 says risky, whatever the temperature |
| `Weather.ConditionsPhrase` | main.py:186-193 | A report with readings says "risky due to high winds" iff wind > 15; "challenging due to extreme temperature" iff wind <= 15 and temperature < 0 or > 45; "suitable" iff wind <= 15 and 0 <= temperature <= 45 |
| `Weather.AssessMonotoneInWind` | main.py:187-191 | More wind never turns an unsuitable assessment suitable, nor a risky one safe |
| `Policy.IsPdfName` | main.py:313 | The lower-cased name ends in ".pdf" iff the name's last four characters are '.', then p or P, d or D, f or F |
| `Policy.OfferedTools` | main.py:365-390 | The forex, weather and calculator tools come first, with no duplicates; the policy checker is offered iff an index exists |
| `Policy.StartAnalysis` | main.py:360-413 | An empty query is rejected; otherwise the agent gets the offered tools, and the prompt asks for a policy check iff the policy tool is offered |
| `Policy.QueryPolicy` | main.py:242-253 | The reply is "not loaded" iff there is no index; otherwise it is the index's answer or the failure it raised |
| `Policy.QueryPolicyText` | main.py:246-253 | Without an index the tool's text is "Policy document not loaded. Unable to verify compliance."; with one it is the index's answer verbatim, or "Policy query failed: " followed by the raised error |
| `Policy.OfferedPolicyToolIsLoaded` | main.py:383-390 | When the agent is offered the policy tool, the tool never replies "not loaded" |
| `Policy.PolicyStore.constructor` | main.py:63-65 | At start-up there is no index and the policy is not loaded |
| `Policy.PolicyStore.UploadPdf` | main.py:302-329 | An accepted upload whose build returns stores its result (even `None`) and sets loaded; one whose build raises keeps the index and clears loaded; any other request changes neither; the response is the route's JSON for each case |
| `Policy.SecondUploadReplacesFirst` | main.py:313-321 | After two accepted uploads the policy tool answers from the second index only |
| `Policy.FailedBuildStillLoaded` | main.py:318-321 | An accepted upload whose build returned `None` leaves the policy loaded, yet the agent gets only the three base tools |
| `Policy.RaisedBuildUnloadsButKeepsIndex` | main.py:318-327 | After an accepted upload, an accepted upload whose build raises reports failure and not loaded, yet the agent is still offered the policy tool and it answers from the earlier index |
| `Policy.RejectedUploadKeepsIndex` | main.py:306-329 | A rejected upload after an accepted one keeps the flag and the index the policy tool answers from |
| `Report.Pad` | main.py:480 | A padded number has exactly the field width and only decimal digits |
| `Report.ParsePad` | main.py:480 | Reading a padded number back gives the number |
| `Report.FormatDate` | main.py:480 | The date line has 19 characters |
| `Report.FileStamp` | main.py:493 | The file stamp has 15 characters |
| `Report.DateRoundTrip` | main.py:480 | The `%Y-%m-%d %H:%M:%S` date line reads back as the clock reading it was printed from |
| `Report.FileStampRoundTrip` | main.py:493 | The `%Y%m%d_%H%M%S` stamp reads back as the clock reading it was printed from |
| `Report.LayoutPlacesFields` | main.py:478-485 | The report starts with its title, then holds the date, query, location and decision verbatim at fixed offsets, and ends in a newline |
| `Report.ReportEmbedsFields` | main.py:478-485 | The downloaded report embeds query, location and decision verbatim, and its date line reads back as the report's clock reading |
| `Report.DownloadNameRoundTrip` | main.py:490-495 | The file name is `procurement_decision_` + stamp + `.txt`, and the stamp reads back as the clock reading taken for the name |

## Left out

- Fetching from CoinGecko and OpenWeatherMap, `raise_for_status`, JSON decoding and the mapping of HTTP and network exceptions to messages (main.py:87-89, 144-162, 177-178): network I/O. The decoded quotes and the weather provider's answer are inputs.
- Non-numeric values in the decoded JSON and the errors they raise: quotes and readings are `real` in the model.
- Number rendering (`:.2f`, `:.1f`, `str(float)`) and IEEE rounding (main.py:109, 121, 134, 138-139, 193): rates and readings are exact `real`s, and the reports are values, not text.
- `Forex.NonzeroRates`: holds over exact reals only. In floating point the quotient at main.py:109 can underflow to 0.0 for every currency (an INR quote of 1e-200 over quotes of 1e200), and main.py:121 then raises a division by zero that main.py:161-162 reports as an unexpected error; an overflow to infinity gives a NaN percentage instead.
- Building the retrieval index (PDF loading, splitting, embeddings, FAISS, RetrievalQA, main.py:211-240) and answering from it: library calls. The build result and the index's answer are inputs.
- `secure_filename` and saving the upload (main.py:314-316): file-system I/O. A save that raises ends the request before the state changes.
- How logging the build error can raise (main.py:239): the model takes the raised error as an input, `Policy.BuildRaised`.
- `Policy.IsPdfName`: lower-cases ASCII letters only. Python's full Unicode `lower()` maps no other character to '.', 'p', 'd' or 'f'.
- The LangChain agent run, the Gemini model and the prompt text (main.py:392-449): a nondeterministic planning loop that is delegated. Only the tool list and the policy step are modelled.
- `calculate` (main.py:200-208): an `eval` of arbitrary Python, with nothing to state.
- Telegram dispatch and its background thread (main.py:256-288, 452-458): network I/O and concurrency.
- The unsynchronised race between concurrent uploads and queries on the global index: concurrency. The model runs requests one at a time.
- Flask routing and `send_file`; `index`, which renders the page with flags saying which API keys are set (main.py:291-300), configuration the model does not hold; and `get_policy_status` and `get_realtime_data`, which only pass along the state or tool results modelled here.
- `datetime.now()` (main.py:480, 493): the two clock readings are parameters. `Report.ValidTime` bounds each field but does not check the day against the month's length.
- `Report.FormatDate`: prints the year zero-padded to four digits. Some C libraries print years below 1000 without padding, which a running clock never reaches.
- `Forex.SavingsInRange`: stated only for a positive INR quote. The source's guard (`== 0`) lets a negative quote through, and then the rates and the percentage are negative.
