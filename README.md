# Crop-leaf disease services: a Dafny model

This project models the decision logic of a small crop-disease demonstration.
It has two web services.

- The Flask service (`app.py`) takes an uploaded leaf photo and runs a
  pretrained classifier on it. It picks the label with the highest score and
  looks up a remedy in English, Hindi or Telugu. It stores that result in a
  process-wide `last_prediction` slot, which the PDF report endpoint reads.
- The Express service (`server.js`) answers `/detect` from a static
  `diseaseData` table. It picks a language list and filters it by keywords in
  the uploaded file's name.

Modules:

- `Wrappers` (`wrappers.dfy`): `Option` and `Result`.
- `Strings` (`strings.dfy`): ASCII lower-casing, substring search
  (`includes`), and the subsequence relation used to describe filtered lists.
- `Predictor` (`predictor.dfy`): the `/predict` handler. `Resolve` is the pure
  decision. The class `PredictionService` holds the `last_prediction` slot as
  an `Option<Prediction>` field. `Predict` writes that field and
  `DownloadReport` reads it.
- `Detect` (`detect.dfy`): the `diseaseData` table, `getDiseases`, and the
  language and file-name defaults of the `/detect` handler.

The classifier is outside the model. A request reaches `Resolve` as the score
vector the classifier returned, or as `None` when no usable image got that far:
the `file` part was missing, the image could not be decoded, or the classifier
raised. Every uncaught exception of the handler is a `Failure` case of
`Resolve`, tried in the source's order:

1. image rejected;
2. empty score vector (`np.max` raises);
3. winning position outside `class_names` (`IndexError`);
4. language missing from the remedy table (`KeyError`).

Two behaviours of the code that the model keeps as written:

- The Flask handler falls back to `"en"` only when the `language` field is
  absent. An empty string is kept and then fails the remedy lookup. The
  Express handler's `|| "English"` also replaces an empty string.
- The report endpoint does not show a "no prediction yet" placeholder. It reads
  missing fields, which `ReportOf` gives as `None`.

## Model

| member | source | states |
|---|---|---|
| `Predictor.ArgMax` | app.py:69 | the result is a position of a maximum score, and every earlier position holds a strictly smaller score (ties go to the lowest index) |
| `Predictor.Max` | app.py:68 | the result is one of the scores and no score exceeds it |
| `Predictor.FirstMaxUnique` | app.py:68-69 | there is only one first-maximum position, and the maximum equals the score there, so label and confidence come from the same position |
| `Predictor.RemedyTableComplete` | app.py:18-46 | every label in `class_names` has a remedy entry, with exactly the languages en, hi, te |
| `Predictor.RequestLanguage` | app.py:59 | an absent language field gives "en"; a present one, even empty, is kept as sent |
| `Predictor.Percent` | app.py:76 | a score in [0,1] gives a percentage in [0,100] |
| `Predictor.Resolve` | app.py:58-80 | the errors come in the handler's order, and each clause names its error: no image gives `ImageRejected`; empty scores give `EmptyScores`; an argmax beyond `class_names` gives `LabelOutOfRange` of that index; otherwise a language outside en, hi, te gives `UnsupportedLanguage` of that language; success holds exactly when scores exist, the argmax has a label and the language is in the table; on success the disease is the label at the first maximum, the confidence is 100 times that score, and the remedy is `remedies[disease][lang]` |
| `Predictor.ReportOf` | app.py:115-117 | an empty slot gives three missing fields; a full slot gives its disease, confidence and remedy |
| `Predictor.ClassifierOutputResolves` | app.py:71 | when there is one score per label, the request fails exactly when the language is not en, hi or te, and the error names that language |
| `Predictor.MissingLanguageMeansEnglish` | app.py:59 | with no language field the request succeeds with the English remedy of the chosen disease |
| `Predictor.ConfidenceIsTopScore` | app.py:68-76 | with one score per label and a supported language the request succeeds; its confidence is at least 100 times every score, and for scores in [0,1] it lies in [0,100] |
| `Predictor.TieGoesToLowerIndex` | app.py:69 | of two positions holding the same score, the later one is never the argmax |
| `Predictor.TiedLaterLabelNeverChosen` | app.py:69 | the label of the later of two tied positions is never the answer |
| `Predictor.ClassNamesDistinct` | app.py:18-23 | no label appears twice in `class_names` |
| `Predictor.TiedScoresExample` | app.py:67-78 | scores [0.4, 0.1, 0.4, 0.1] in Hindi give "Apple Scab", 40.0 and its Hindi remedy |
| `Predictor.HindiRequestScenario` | app.py:59-80 | four probabilities with language hi give a catalogued disease, a confidence in [0,100] and that disease's Hindi remedy |
| `Predictor.PredictionService.constructor` | app.py:48 | the slot starts empty |
| `Predictor.PredictionService.Predict` | app.py:57-80 | returns `Resolve`'s result; on success the slot holds exactly that result and replaces whatever was there; on failure the slot is unchanged |
| `Predictor.PredictionService.DownloadReport` | app.py:104-117 | reads the current slot; before any prediction all three fields are missing |
| `Predictor.TwoPredictions` | app.py:73-78 | the two results are those of the two requests, each with its own language; after both calls the slot holds the later successful result, never a merge; when both fail it is untouched |
| `Predictor.FreshServiceScenario` | app.py:48 | a new service reports missing fields; a rejected upload fails and leaves the report unchanged |
| `Strings.ToLower` | server.js:51 | keeps the length and lower-cases each character |
| `Strings.ToLowerHasNoUpper` | server.js:51 | a lower-cased name holds no upper-case letter |
| `Strings.ToLowerIdempotent` | server.js:63 | lower-casing twice equals lower-casing once |
| `Strings.Contains` | server.js:62-63 | the empty keyword always occurs; an occurring keyword is no longer than the name and its first character appears in the name |
| `Strings.ContainsIff` | server.js:62-63 | `includes` holds exactly when the keyword occurs at some position |
| `Strings.ContainsToLower` | server.js:51 | an occurrence survives lower-casing of both the name and the keyword |
| `Strings.NotContainsWithoutFirstChar` | server.js:63 | a keyword whose first letter is absent from a name does not occur in it |
| `Detect.SelectList` | server.js:60 | the selected list is never empty and is one of the three tables |
| `Detect.MentionsRust` | server.js:63 | the filter's test; a name that passes it holds the letter r or R |
| `Detect.RustEntries` | server.js:63 | the result is a subsequence of the list; every entry whose lower-cased name contains "rust" appears in it as many times as in the list, and no other entry appears |
| `Detect.GetDiseases` | server.js:59-65 | the answer is always a subsequence of the selected list |
| `Detect.RequestLanguage` | server.js:50 | a missing or empty language becomes "English"; any other value is kept |
| `Detect.RequestFileName` | server.js:51 | no upload gives the empty name; an upload gives the stored name lower-cased character by character, with no upper-case letter left |
| `Detect.DetectResponse` | server.js:49-56 | the handler's list is a subsequence of the list for the requested language |
| `Detect.IndicListsHaveNoRustEntries` | server.js:34-45 | no Hindi or Telugu name contains the Latin "rust", so the filter keeps nothing from either list |
| `Detect.UnknownLanguageFallsBackToEnglish` | server.js:50-60 | a missing, empty or unknown language gets the English list and the same answer as "English" |
| `Detect.SameListSameDiseases` | server.js:60-64 | the answer depends on the language only through the list it selects |
| `Detect.HealthyNameYieldsLastEntry` | server.js:62 | a name containing "healthy" gets one element, the last entry of the list, even when it also contains "rust" |
| `Detect.RustNameYieldsRustEntries` | server.js:63 | a name with "rust" and without "healthy" gets a subsequence of the list containing an entry exactly when that entry's lower-cased name contains "rust", as many times as the list holds it |
| `Detect.RustBranchIsRustFilter` | server.js:63 | such a name gets the rust filter of the selected list |
| `Detect.OtherNameYieldsWholeList` | server.js:64 | a name with neither keyword gets the whole selected list |
| `Detect.NoUploadYieldsWholeList` | server.js:51 | without an upload the handler returns the whole list for its language |
| `Detect.IndicRustRequestIsEmpty` | server.js:63 | a rust request in Hindi or Telugu returns the empty list |
| `Detect.HealthyMatchIgnoresCase` | server.js:51-62 | "healthy" in any letter case in the stored name selects the last entry |
| `Detect.RustMatchIgnoresCase` | server.js:51-63 | "rust" in any letter case, without "healthy", selects the rust filter |

## Left out

- Image decoding, RGB conversion, resizing to 224x224, scaling by 1/255 and
  the batch dimension (app.py:62-65) are library calls on floating-point
  arrays. The model starts from the score vector they lead to.
- The classifier (`model.predict`, app.py:67) and its training script
  (model.py) are left out. Scores are mathematical reals, so there is no
  floating-point NaN or rounding in the argmax.
- Predictor.Resolve: the confidence is `100 * max score` and is not rounded to
  two decimals. Python's `round` of a binary float is not modelled.
- The `/chat` relay (app.py:82-102) is a network call to a hosted model.
  Reading the API key from the environment (app.py:51) is left out too.
- PDF rendering in `download_report` (app.py:106-122) is left out, and so is
  the text of each paragraph. Only the three field reads are modelled.
- HTTP routing, CORS, JSON encoding, `app.run` / `app.listen`, the `uploads`
  folder (server.js:68-69) and multer storage (server.js:14-22) are left out.
  The stored file name, timestamp prefix included, is an input of
  `Detect.DetectResponse`.
- Strings.ToLower: lower-cases only the ASCII letters A-Z. JavaScript's
  `toLowerCase` also maps other Unicode letters. Every name in the table is
  ASCII or in a script without case.
- A language key such as "toString", which JavaScript finds on the object's
  prototype, is not modelled. The table is a three-key map with an English
  fallback.
- Concurrent requests racing on `last_prediction` are not modelled. Calls are
  a single-threaded sequence.
