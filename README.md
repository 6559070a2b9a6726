# Search-result normaliser of the social-media crew tools

This project models the three search tools of `utils/tools.py`
(`GoogleImageSearchTool`, `PinterestSearchTool`, `SlideShareSearchTool`) and
proves properties of what their `_run` methods return. Each tool builds a
fixed parameter set for one SerpAPI engine. It calls the search client and
looks up one results key in the document it gets back, treating a missing key
as an empty list. It keeps the first 10, 10 or 8 elements and turns each into
a small record tagged with a platform name. If anything inside the `try`
raises, it returns `{"error": str(e)}` instead of the list.

The model has three modules:

- `Json` (json.dfy): the decoded JSON values the client returns, and the
  Python operations the tools apply to them. These are `dict.get` with a
  default, slicing `v[:n]` and iterating over a slice. Each may raise; the
  exception texts follow CPython's wording.
- `Normalizer` (normalizer.dfy): one normaliser, parametrised by a `Config`
  (engine, query prefix, extra parameters, results key, cap, field rules,
  platform tag). `Normalize` is the specification. `Run` is the `_run` body
  as a method with the source's append loop, proved equal to `Normalize`.
- `Tools` (tools.dfy): the three configurations. For each tool there is a
  direct model of its parameter dict and of the record literal in its loop,
  a lemma that the configured normaliser agrees with that direct model, the
  tool's `_run` as a method, and the properties of its output.

The search client is a parameter `provider` of type `Provider`. It maps the
request parameters to either a result document or a raised exception's text.
`os.getenv("SERPAPI_KEY")` is a parameter `apiKey: Option<string>`, sent as a
string or as `None`. The output is a `Json` value: `Arr(records)` or the
one-key object `{"error": message}`, i.e. the value `json.dumps` serialises.

Three behaviours of the code are easy to miss; the model follows them:

- The `try` block also covers the mapping loop. So an element that is not a
  dict (`.get` raises), or a title that cannot be sliced (for example `None`),
  also replaces the whole list by the error object. This is not limited to a
  failing provider call.
- Fields are copied as whatever JSON value the provider returned. They are
  strings only when the provider sent strings. A list-valued title is sliced
  as a list.
- A results value that is a string is sliced and iterated character by
  character. An empty string gives `[]`; any other string raises on `str.get`.

## Model

| member | source | states |
|---|---|---|
| `Json.SliceString` | utils/tools.py:34 | slicing a string to n keeps a prefix of at most n characters, the whole string when it fits, exactly n characters when it is longer |
| `Json.SliceItemsList` | utils/tools.py:32 | iterating `list[:n]` visits a prefix of the list in order, of length min(n, len), the whole list when it has at most n elements |
| `Json.SliceItemsRaises` | utils/tools.py:32 | `v[:n]` followed by iteration raises exactly when v is neither a list nor a string, and yields at most n elements otherwise |
| `Normalizer.RequestParams` | utils/tools.py:19-25 | the request holds engine, `prefix + query`, the API key (or None) and exactly the tool's extra parameters, and no other key |
| `Normalizer.Run` | utils/tools.py:17-43 | the `_run` method with the append loop returns exactly `Normalize` of the provider's answer to the tool's parameters |
| `Normalizer.MapRecordsOk` | utils/tools.py:32-39 | the loop finishes exactly when every element makes a record; then record i is made from element i, with the same length and order |
| `Normalizer.MapRecordsFirstRaise` | utils/tools.py:32-43 | when element k is the first that raises, the result is the exception of element k |
| `Normalizer.BuildFieldsKeys` | utils/tools.py:33-38 | evaluating a record literal adds exactly the rules' keys |
| `Normalizer.RecordShape` | utils/tools.py:33-39 | every record is a dict with exactly the rules' keys plus `platform`, and `platform` is the tool's tag |
| `Normalizer.OutputShape` | utils/tools.py:41-43 | the output is a list or a one-key `{"error": string}` object; a raising provider gives `{"error": msg}` |
| `Normalizer.BatchInvariant` | utils/tools.py:30-41 | a list output has at most `cap` records, each with the tool's keys and platform tag |
| `Normalizer.MissingKeyIsEmpty` | utils/tools.py:30-31 | a document without the results key gives the empty list, not an error |
| `Normalizer.ListResults` | utils/tools.py:30-43 | with a list of results, either every capped element makes a record and the output is those min(len, cap) records in order, or the output is the error object of the first element that raises; never a partial list |
| `Normalizer.StringResults` | utils/tools.py:32-33 | a string results value gives `[]` when empty (or with cap 0) and otherwise the error `'str' object has no attribute 'get'` |
| `Normalizer.OtherResults` | utils/tools.py:32 | a results value that is neither a list nor a string gives the error object with the slicing TypeError's text |
| `Tools.GoogleImagesAgrees` | utils/tools.py:19-39 | the Google Images configuration sends exactly `{engine: google_images, q: query, api_key, num: 10, safe: active}` and makes exactly the record of the source's literal (title←title sliced to 100, source←source, link←original, thumbnail←thumbnail, platform "Google Images") |
| `Tools.GoogleImageSearch` | utils/tools.py:17-43 | `GoogleImageSearchTool._run` returns the normaliser's output on the provider's answer to the Google Images parameters |
| `Tools.GoogleImagesNoResults` | utils/tools.py:30-31 | a raising provider gives `{"error": msg}`; a document without `images_results` gives `[]` |
| `Tools.GoogleImagesList` | utils/tools.py:31-43 | with a list of images the output has min(len, 10) ≤ 10 records, record i from image i, or is the first raised exception's error object instead of any list |
| `Tools.GoogleImageTitle` | utils/tools.py:33-39 | a string title (or none) becomes a prefix of at most 100 characters, the whole title when it fits; the record has exactly the keys title, source, link, thumbnail, platform |
| `Tools.PinterestAgrees` | utils/tools.py:52-70 | the Pinterest configuration sends exactly `{engine: pinterest, q: query, api_key}`, with no num or safe key, and makes the record of the source's literal (source←link, link←image, title sliced to 100, platform "Pinterest") |
| `Tools.PinterestSearch` | utils/tools.py:50-74 | `PinterestSearchTool._run` returns the normaliser's output on the provider's answer to the Pinterest parameters |
| `Tools.PinterestNoResults` | utils/tools.py:61-62 | a raising provider gives `{"error": msg}`; a document without `pinterest_results` gives `[]` |
| `Tools.PinterestList` | utils/tools.py:62-74 | with a list of pins the output has min(len, 10) ≤ 10 records in order, or is the first raised exception's error object |
| `Tools.PinterestTitle` | utils/tools.py:64-70 | a string title (or none) becomes a prefix of at most 100 characters, the whole title when it fits; exactly the five image keys |
| `Tools.SlideShareAgrees` | utils/tools.py:83-101 | the SlideShare configuration sends exactly `{engine: google, q: "site:slideshare.net OR site:scribd.com " + query, api_key, num: 8}` and makes the record of the source's literal (title, source←link, snippet, platform "SlideShare/Scribd") |
| `Tools.SlideShareSearch` | utils/tools.py:81-105 | `SlideShareSearchTool._run` returns the normaliser's output on the provider's answer to the SlideShare parameters |
| `Tools.SlideShareNoResults` | utils/tools.py:93-94 | a raising provider gives `{"error": msg}`; a document without `organic_results` gives `[]` |
| `Tools.SlideShareList` | utils/tools.py:94-105 | with a list of results the output has min(len, 8) ≤ 8 records in order, or is the first raised exception's error object |
| `Tools.SlideShareUntruncated` | utils/tools.py:96-101 | a dict element always makes a record; title and snippet are copied whole, whatever their length; exactly the keys title, source, snippet, platform |
| `Tools.PlatformTagged` | utils/tools.py:33-39 | for all three tools, a list output is within the cap and every record has the tool's exact key set and its non-empty platform tag |
| `Tools.LongGoogleTitle` | utils/tools.py:31-39 | one image with a 150-character title gives one record whose title is the first 100 characters, with platform "Google Images" |
| `Tools.EmptyAndTimeout` | utils/tools.py:41-43 | an empty document gives `[]` from every tool; a provider raising "timeout" gives `{"error": "timeout"}` |
| `Tools.NullElementFails` | utils/tools.py:94-105 | a `null` among the results turns the whole answer into `{"error": "'NoneType' object has no attribute 'get'"}` |

## Left out

- The SerpAPI client `GoogleSearch(params).get_dict()` is a network call. It is the `provider` parameter: any function from parameters to a document or a raised exception's text.
- `os.getenv("SERPAPI_KEY")` reads the environment. It is the `apiKey` parameter.
- `json.dumps(..., indent=2)`: the output is modelled as the JSON value it serialises, not as text. Key order and indentation are not modelled, and neither is a serialise/parse round trip.
- JSON floating-point numbers are not modelled (numbers are integers). A float title would raise `'float' object is not subscriptable`.
- The exception text for slicing a dict is the wording of Python before 3.12 (`unhashable type: 'slice'`). From 3.12 on it is a KeyError with a different text. Both are error objects.
- Strings are Dafny strings of Unicode scalar values, so a decoded Python `str` holding a lone surrogate is not represented. Slicing counts code points in both, so no other string is affected.
- `except Exception` (utils/tools.py:42, 73, 104) does not catch `BaseException` subclasses such as `KeyboardInterrupt`, which would propagate out of `_run`. Every `Raised` outcome in the model is caught.
- The class wiring of `BaseTool` and pydantic (`name`, `description`, `args_schema`, `ImageSearchInput`) is configuration with no behaviour.
- app.py, app_streamlit.py and utils/agents.py are the UI and the agent configuration of an external orchestration framework. `utils.tasks` is not part of this model.
