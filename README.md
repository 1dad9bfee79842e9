# Pistachio leaf analysis: decision layer

This project models the logic of its own that the pistachio-leaf disease
detection page (`antep.py`) has around its remote object-detection call.
The user uploads a leaf photo and presses "AI Analizini Başlat". The page
sends the image to the detection service and shows one result card per
detected disease or pest. Four pieces of logic sit between the service and
the screen, one module each:

- **Advice** (`advice.dfy`): the disease-info lookup. Six class labels map
  to a curated Turkish (title, advice) pair. Every other string gets the
  fallback pair "Bilinmeyen Etiket".
- **Predictions** (`predictions.dfy`): a detection (class label and
  confidence as a `real`), the threshold 0.45, and the order-preserving
  confidence filter.
- **Results** (`results.dfy`): the outcome of the inference call (HTTP
  error, other exception, or a JSON body with or without `predictions`)
  classified into one of five displays. It also holds the card-rendering
  loop and the analysis step that uses it.
- **Session** (`session.dfy`): the `run_analysis` session flag. It is a pure
  transition function with a replay over a history of reruns, plus a class
  `SessionState` that holds the flag. The class has the `Step` and `Rerun`
  methods that update it in place.

`options.dfy` holds the `Option` datatype. It stands for a dictionary key
being present or absent.

Behaviour of the code worth knowing, which the model keeps:

- The flag is cleared only on a rerun with no file at all
  (antep.py:113-115). Replacing one file with another without clearing the
  uploader first keeps a true flag (`Session.TrueFlagPersists`), so the new
  file is analysed without a new press.
- The fallback pair for unknown labels is Turkish: ("Bilinmeyen Etiket",
  "Bu etiket için detaylı bilgi bulunmamaktadır.") (antep.py:87).
- A body without `predictions` and a body with nothing above the threshold
  show two different messages (antep.py:160 and antep.py:157). The model
  has two displays for them: `NothingDetected` and `NoneAboveThreshold`.
- The only inference path is the remote call (antep.py:59-72). A local
  detector does not exist in `antep.py` and is not part of this model.
- The image is decoded (antep.py:120) outside the `try` block that starts at
  antep.py:133. An upload that does not decode ends the rerun with an
  uncaught error after the flag update and before the gate, so nothing is
  analysed. `Rerun` takes this as its `decodes` input.

## Model

| member | source | states |
|---|---|---|
| `Advice.Lookup` | antep.py:75-87 | total over all strings; a curated label gets its table entry; the fallback entry (and the fallback title) is returned exactly when the label is not one of the curated keys |
| `Advice.CuratedEntries` | antep.py:78-85 | the table has exactly the six keys PHYPSO, FORD FO, MYCOPT, SOKADE, FİZYOLOJİ, SONID, and each returns its exact curated (title, description) pair |
| `Advice.UnknownLabelFallback` | antep.py:87 | any label outside the six returns ("Bilinmeyen Etiket", "Bu etiket için detaylı bilgi bulunmamaktadır.") |
| `Advice.LabelsMatchExactly` | antep.py:87 | keys match exactly: "phypso" and "FIZYOLOJI" (dotless I) fall back, "FİZYOLOJİ" does not |
| `Advice.TitlesIdentifyLabels` | antep.py:78-85 | two curated labels share a title only if they are the same label |
| `Predictions.FilterAbove` | antep.py:139 | the result is no longer than the input, and a prediction is in it exactly when it is in the input and its confidence is at least the threshold |
| `Predictions.FilterIsSubsequence` | antep.py:139 | the kept list is a subsequence of the input (deletions only, order kept) |
| `Predictions.FilterAppend` | antep.py:139 | filtering a concatenation is the concatenation of the filtered parts, so the relative order of kept predictions is the input order |
| `Predictions.FilterKeepsPassingList` | antep.py:139 | a list whose every prediction meets the threshold passes unchanged |
| `Predictions.FilterIdempotent` | antep.py:139 | filtering twice equals filtering once |
| `Predictions.FilterEmptyIff` | antep.py:139-141 | nothing is kept exactly when every confidence is below the threshold; this includes the empty list |
| `Results.Classify` | antep.py:133-167 | HTTP error iff the API-key message; other exception iff the generic error; body without `predictions` iff "nothing detected"; predictions with none retained iff the threshold message; otherwise one card per retained prediction, in filter order, with the lookup's title and advice and the raw label |
| `Results.CardFor` | antep.py:145-153 | a card carries the prediction's raw label and confidence; a curated label's card carries that label's curated title and advice; any other label's card carries the fallback title and description; so the fallback title appears exactly when the label is not curated |
| `Results.RenderCards` | antep.py:144-154 | the loop yields one card per retained prediction, the i-th carrying the i-th prediction's label and confidence and its lookup title and description |
| `Results.Analyze` | antep.py:133-167 | the try/if/for analysis step shows exactly what `Classify` prescribes for the inference outcome |
| `Results.ErrorsShowNoCards` | antep.py:162-167 | an HTTP error gives the API-key message and any other exception the generic error; neither gives cards |
| `Results.MissingPredictionsIsNothingDetected` | antep.py:159-160 | a body without `predictions` shows "nothing detected", which is neither an error nor the threshold message |
| `Results.NothingAboveThresholdShowsMessage` | antep.py:156-158 | predictions all below 0.45, the empty list included, show the threshold message |
| `Results.CardsMatchConfidentDetections` | antep.py:139-153 | every card stands for a prediction of the response with confidence at least 0.45 and shows its label's lookup title; every such prediction has its card |
| `Results.OneConfidentDetection` | antep.py:139-153 | PHYPSO at 0.9 with SOKADE at 0.2 shows exactly one card, "Yaprak Lekesi (Phyllosticta)" for PHYPSO at 0.9 |
| `Session.Next` | antep.py:107-115 | no file removes the key; with a file the key is present afterwards; it is true iff the button was pressed now or it was true before; an existing value is left unchanged when not pressed |
| `Session.Runs` | antep.py:127 | analysis runs only with a file uploaded and the flag present and true: an absent key (read as false) or a false flag keeps it shut |
| `Session.RunsAfterStep` | antep.py:107-127 | after a rerun, analysis runs iff a file is uploaded and the button was pressed on this rerun or the flag was already true |
| `Session.TrueFlagPersists` | antep.py:110-112 | a true flag stays true over any number of reruns while a file stays uploaded |
| `Session.NoFileClearsFlag` | antep.py:113-115 | a rerun without a file leaves the key absent, whatever the history |
| `Session.FlagTrueIff` | antep.py:107-115 | from a not-yet-true flag, the flag is true after a history iff the button was pressed on some rerun and a file stayed uploaded from then on |
| `Session.RunsOnlyAfterPress` | antep.py:118-127 | in a fresh session, analysis runs only if the button was pressed while the file has stayed uploaded since |
| `Session.SessionState.constructor` | antep.py:111 | a new session has no `run_analysis` key |
| `Session.SessionState.Step` | antep.py:107-115 | updates the stored flag as `Next` says, so the gate opens iff a file is uploaded and a press happened now or the flag was already true |
| `Session.SessionState.ShouldRun` | antep.py:127 | the gate opens only with a file uploaded and the stored flag present and true; an absent flag keeps it shut |
| `Session.SessionState.Rerun` | antep.py:107-167 | one page rerun: updates the flag; shows something iff a file is uploaded, the image decodes and the button was pressed now or the flag was already true; what it shows is the classification of the inference outcome |

## Left out

- The HTTP POST to the detection endpoint, the URL and API key, `raise_for_status` and `response.json()` (antep.py:59-72). This is network I/O. Its result enters the model as the `Response` datatype, which `Rerun` takes as a parameter.
- The shape of the JSON body beyond "has a `predictions` entry or not". A body that is a list or a string answers the `in` test by membership or substring; the model folds those cases into `Body(None)` or `OtherFailure`.
- Malformed prediction entries. These raise inside the `try` block and end in the generic error (antep.py:165-167): an entry that is not a dictionary or has no `confidence` key, or whose confidence is not numeric (all at the comparison on antep.py:139); a missing `class` key on an entry at or above 0.45 (antep.py:146); and a float confidence above 1.0, which the progress bar rejects (antep.py:150). In the last two cases, cards already drawn stay on screen. The model assumes every entry has a label and a numeric confidence. A missing `class` on an entry below 0.45 is never read, and a negative confidence is dropped by the filter; the model agrees with the code on both.
- Results.Classify: for a retained confidence above 1.0 it shows a card where the code ends in the generic error, because the progress widget's range check belongs to the UI library and is not modelled.
- All Streamlit rendering: page configuration, sidebar, HTML/CSS, columns, upload widget, image preview, spinner, progress bar, balloons, the success banner (antep.py:19-52, 94-104, 122-158). This is UI.
- Image decoding with PIL and `uploaded_file.read()` (antep.py:119-120). This is library I/O. Only whether decoding succeeds is modelled, as the `decodes` input of `Rerun`.
- The `@st.cache_data` memoisation of the lookup (antep.py:74). It does not change the result of a pure table lookup.
- Percentage formatting of confidences and of the threshold (antep.py:29, 152, 157). Confidence is a `real`; only the comparison with 0.45 is modelled.
- The API key and model identifier constants (antep.py:10-12). They are configuration.
- File identity. `Interaction` records only whether a file is uploaded, not which one.
