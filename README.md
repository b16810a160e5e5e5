# TechieHelp keyword router

This project models `techiehelp_responses`, the function that answers a chat
query in the TechieHelp chatbot. The function lower-cases the query once. It
then tries six substring guards in a fixed order: "techiehelp" (written as
`"about techiehelp" in query or "techiehelp" in query`), "services",
"internships", "mission", "founder" and "contact". The first guard that matches
returns that topic's fixed text. When no guard matches, the original query goes
to the hosted generative model together with the preamble
"you are a friendly model", and the model's text is returned unchanged.

Files:

- `text.dfy`, module `Text`, models the two Python string operations the router
  uses. `Lower` is `str.lower()` restricted to ASCII. `Contains` is
  `needle in hay`, written as a scan over suffixes that compares characters one
  at a time. Lemmas tie `Contains` to the positional definition of a substring
  and to the facts the router proofs need.
- `router.dfy`, module `Router`, contains the following.
  - `Route` is the if/elif chain as written. It decides between `Canned(topic)`
    and `Forward(query)`.
  - `FirstMatch` is the same chain written as a scan of the guard table `ORDER`.
  - `CannedText` holds the six constant texts, copied verbatim.
  - `Respond` carries out the decision. Its result records the answer and the
    list of remote requests made, which is empty for a canned answer and holds
    exactly one prompt for the fallback.
  - `Response` is the string the Python function returns.

The generative model is a function parameter `model: Prompt -> string`. A
`Prompt` is the pair (preamble, user text) that `gen1.generate_content`
receives. An answer is kept symbolic as `Fixed(topic)` or `Generated(text)`
until `Render` turns it into text. This lets the lemmas about routing talk
about which answer is returned without having to handle the long canned
literals.

Although "What services does TechieHelp offer?" names services, the code
tests "techiehelp" first, so that query gets the About text;
`Router.ServicesQuestionGetsAbout` proves this.

## Model

| member | source | states |
|---|---|---|
| Text.LowerChar | gen.py:53 | folding one character leaves no ASCII capital and changes nothing else; `Text.LowerCharOfCapital` says what a capital becomes |
| Text.LowerCharOfCapital | gen.py:53 | a capital becomes the small letter at the same position of the alphabet ('A' to 'a' … 'Z' to 'z') |
| Text.Lower | gen.py:53 | the ASCII fold standing for `str.lower()` keeps the length of the text |
| Text.LowerAt | gen.py:53 | lower-casing works character by character: position `i` of the result is the fold of position `i` of the input |
| Text.LowerIdempotent | gen.py:53 | lower-casing an already lower-cased query changes nothing |
| Text.LowerOfLowerCase | gen.py:53 | a text without capitals is its own lower-cased form |
| Text.LowerConcat | gen.py:53 | lower-casing distributes over concatenation |
| Text.StartsWith | gen.py:56 | the empty needle begins every text, and a text only begins with a needle no longer than itself |
| Text.Contains | gen.py:56 | Python's `needle in hay`: the empty needle is in every text, and a contained needle is no longer than the haystack; `Text.ContainsIffOccurs` gives its meaning |
| Text.StartsWithIsPrefix | gen.py:56 | the character-by-character comparison holds exactly when the needle is a prefix |
| Text.ContainsIffOccurs | gen.py:56 | `needle in hay` holds exactly when the needle occurs at some index of the haystack, in both directions |
| Text.ContainsTransitive | gen.py:56 | a substring of a substring is a substring |
| Text.ContainsChar | gen.py:56 | every character of a contained needle occurs in the haystack |
| Text.ContainsInfix | gen.py:56 | a needle is contained in any text that has it between a prefix and a suffix |
| Router.Keyword | gen.py:56-99 | each guard's keyword is non-empty and has no capital letter, so it can match the lower-cased query |
| Router.Route | gen.py:52-104 | the if/elif chain: a canned topic is chosen only when its keyword occurs in the lower-cased query, and a forwarded query is the query as typed; `Router.FirstMatchWins` and `Router.ForwardIffNoKeyword` give the exact conditions |
| Router.Respond | gen.py:101-104 | a remote call is made exactly when the router does not pick a canned topic; it is then the single prompt of the fixed preamble and the query as typed, and only then is the answer generated |
| Router.Response | gen.py:52-104 | the returned string is the topic's canned text (`CannedText`, gen.py:57-100) when a guard matches, and otherwise the model's text for the preamble and the query as typed |
| Router.FirstMatch | gen.py:56-100 | the scan returns the index of a matching guard with no earlier guard matching, and returns nothing exactly when no guard of the table matches |
| Router.RouteIsTableScan | gen.py:56-104 | the if/elif chain as written equals the first-match scan of the guard table in the order techiehelp, services, internships, mission, founder, contact, with forwarding when nothing matches |
| Router.FirstMatchWins | gen.py:56-100 | the router answers topic `t` exactly when `t`'s keyword is in the lower-cased query and no earlier guard's keyword is |
| Router.KeywordIsLowerCase | gen.py:56-99 | every guard keyword is lower case, so it can match a lower-cased query |
| Router.AboutPhraseHasKeyword | gen.py:56 | "about techiehelp" contains "techiehelp" |
| Router.AboutDisjunctRedundant | gen.py:56 | the first guard is equivalent to `"techiehelp" in query` alone |
| Router.TechieHelpAlwaysWins | gen.py:56-70 | a lower-cased query containing "techiehelp" gets the About answer whatever other keywords it holds, and only such queries get it; no remote call is made |
| Router.ForwardIffNoKeyword | gen.py:101-104 | the query is forwarded exactly when none of the six keywords occurs in the lower-cased query, and it is forwarded as typed |
| Router.RemoteCallIffNoKeyword | gen.py:101-104 | a remote call is made exactly when no keyword matches |
| Router.FallbackForwardsVerbatim | gen.py:103-104 | the fallback makes one call with the preamble "you are a friendly model" and the original, not lower-cased, query, and returns the model's text unchanged |
| Router.CannedIgnoresModel | gen.py:57-100 | a canned branch makes no remote call, ignores the model, and returns its topic's constant text |
| Router.SameTopicSameText | gen.py:57-100 | two queries routed to the same topic get the same text, whatever else they contain |
| Router.RouteIgnoresCase | gen.py:53 | two queries that lower-case alike get the same canned topic, and both are forwarded as typed otherwise |
| Router.RouteOfLowered | gen.py:53 | a query and its lower-cased form select the same canned topic |
| Router.KeywordInsideWord | gen.py:56-100 | keywords are plain substrings: a keyword glued inside a longer word still selects its topic when no earlier keyword occurs |
| Router.KeywordAnyCase | gen.py:53-100 | a word that lower-cases to a keyword selects its topic in any case and between any surrounding text, when no earlier keyword occurs |
| Router.RecontactMatchesContact | gen.py:99-100 | "recontact" gets the Contact answer |
| Router.InternshipIsForwarded | gen.py:82 | "internship" without the final "s" matches no guard and is forwarded as typed |
| Router.TechieHelpFolds | gen.py:53-56 | the brand name as users write it, "TechieHelp", lower-cases to the first guard's keyword "techiehelp" |
| Router.ServicesQuestionGetsAbout | gen.py:56-70 | "What services does TechieHelp offer?" gets the About answer, not the Services one, and makes no remote call |
| Router.ServicesAnswer | gen.py:72-81 | "Our Services" gets the Services answer and makes no remote call |

## Left out

- `gen1.generate_content` (gen.py:103) is a network call. It is the function parameter `model`. Its failure is not modelled, and the Python code does not catch it either.
- `str.lower` (gen.py:53) performs full Unicode case mapping. The model folds only the ASCII capitals A-Z. Python also folds non-ASCII capitals, and it makes U+0130 longer: it lowers to 'i' followed by U+0307. The only non-ASCII characters that lower to ASCII letters are U+0130 (to 'i' + U+0307) and U+212A (to 'k'). No keyword contains 'k' or ends in 'i', so the routing decision is the same as Python's; only the length and non-ASCII content of the folded text differ, and the folded text is never returned.
- CannedText: carries no contract of its own. Its body is one match over all six literals, so unfolding it for any topic brings in every text. Two kinds of statement go beyond the verifier's resource limit of 2 million units: an `ensures` on `CannedText` itself, and any fact about the About text (about 1500 characters; even "it is non-empty" needs about 2.12 million). A lemma about the Services text's 41-character heading sits at the limit (measured at 2.0 to 2.13 million, depending on the surrounding declarations), so it is not included. Shorter texts can be read (that the Contact text is non-empty needs about 1 million), but no lemma looks inside a canned text. Its content is stated through `Router.Response` and `Router.CannedIgnoresModel`, which return it verbatim.
- `store_message`, `fetch_chat_history` and `close_connection` (gen.py:28-45, mongodb.py) are MongoDB persistence through pymongo and are not part of this model.
- `log_interaction` and the logging setup (gen.py:20, 48-49) are file I/O, and the function is never called.
- `extract_text_from_pdf` and `extract_text_from_image` (gen.py:108-120) call PyMuPDF and Tesseract and are not part of this model.
- `generate_pdf` and `generate_excel` (gen.py:123-146) build documents with FPDF, pandas and xlsxwriter and are not part of this model.
- The Streamlit page script (gen.py:149-190) is user interface code and is not part of this model.
- The canned texts are Python's adjacent string literals. The model joins them with `+`. For the reason given in the "CannedText:" line, no lemma compares two canned texts or looks inside one.
