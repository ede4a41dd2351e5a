# Fact feed state model

A Dafny model of the client-side state logic of "Today I Learned", a page
where users browse short facts by category, share a new fact with a source
link, and vote on each fact (interesting, mind-blowing, false). All of it
lives in `App.js`; this model takes out the state the React components keep
and the rules their handlers apply, and leaves the rendering and the remote
store (Supabase) out.

- `wrappers.dfy` (`Wrappers`): `Option` and `Result`, the shapes of the URL
  parser's and the store's answers.
- `facts.dfy` (`Facts`): the fact record, the derived "disputed" flag, the
  update a vote sends and what the store does with it, and the two list
  updaters given to `setFacts`: prepend a new fact, patch entries by id.
- `validation.dfy` (`Validation`): the JavaScript string length (UTF-16 code
  units), `isValidHttpUrl` over an abstract URL parser, and the guard of
  `handleSubmit`.
- `query.dfy` (`Query`): the page request `getFacts` sends (optional
  category filter, 50 rows, newest first) and what an answer may contain.
- `feed.dfy` (`Feed`): the components' state as classes. `App` holds
  `facts`, `showForm`, `isLoading`, `currCat` and a log of the alerts raised;
  `NewFactForm` holds the form fields and `isUploading`; `FactItem` holds one
  listed fact's `isUpdating`. The handlers are methods that take the store's
  answer as a parameter.

`getFacts` is split at its `await` into `BeginGetFacts` and `EndGetFacts`, so
that two fetches can overlap. `handleSubmit` and `handleVote` are one method
each. `App.js` does not do the following, and neither does the model:

- it does not check, when a fetch answer arrives, that the answer is for
  the category current now: a late answer for an earlier category replaces
  the list (`StaleFetchScenario`);
- it does not keep the form open when an insert fails: the form closes
  either way;
- it does not report a failed vote: the failure is ignored without an alert;
- it does not check that the chosen category is one of the eight known
  names, only that one was chosen (`UnknownCategoryPasses`);
- it does not guard a vote against concurrent votes: the buttons are
  disabled only during that item's own request, and the update writes an
  absolute value, so two votes from the same displayed state count once
  (`ConcurrentVotesLoseIncrement`).

## Model

| member | source | states |
|---|---|---|
| Facts.Votes | App.js:207 | `fact[value]`: the counter a vote field reads is one of the fact's three counters |
| Facts.IsDisputed | App.js:202 | a fact is disputed when false votes exceed interest plus mind-blow votes; a tie is never disputed, and with non-negative counts a disputed fact has at least one false vote |
| Facts.ApplyUpdate | App.js:205-209 | the store's write of an update sets the named counter to the sent value and keeps the other two counters, the id, text, source and category |
| Facts.VoteRequest | App.js:207 | a vote's update names only the chosen column, with a value above the fact's displayed count |
| Facts.VoteIncrementsOnlyChosenCounter | App.js:205-209 | applied to the displayed row, a vote adds exactly one to the chosen counter, leaves the other two counters and the id unchanged |
| Facts.ConcurrentVotesLoseIncrement | App.js:207 | re-applying a vote issued from the same displayed fact changes nothing: two such votes raise the counter by one, not two |
| Facts.SupportingVoteNeverDisputes | App.js:202 | an interest or mind-blow vote never turns an undisputed fact into a disputed one |
| Facts.FalseVoteDisputesExactlyAtTie | App.js:202 | a false vote keeps a disputed fact disputed, and disputes an undisputed fact exactly when false votes equalled interest plus mind-blow votes |
| Facts.Prepend | App.js:113 | after an insert the new fact is first, the length grows by one and the old entries follow in their order |
| Facts.PatchById | App.js:212-213 | same length; each entry with the voted id becomes the returned row, every other entry is kept in place; a list without that id is returned unchanged |
| Facts.PatchIdempotent | App.js:212-213 | applying the same patch twice gives the same list as applying it once |
| Facts.PatchKeepsIdsAndOtherFlags | App.js:212-213 | when the returned row has the voted id, the list's ids and their order are unchanged and entries with other ids keep their disputed flag |
| Facts.PatchAfterPrepend | App.js:113 | a patch for another id passes the newly prepended fact untouched and patches the rest as before |
| Validation.Utf16Length | App.js:100 | the text length lies between the character count and twice it, and equals the character count exactly when no character is outside the Basic Multilingual Plane |
| Validation.IsValidHttpUrl | App.js:83-93 | `isValidHttpUrl` over an abstract URL parser: it never holds when parsing fails |
| Validation.CanSubmit | App.js:105 | the submit guard (text non-empty, http(s) link, category non-empty, at most 200 code units); a submission it admits has 1 to 200 characters and a parsable link |
| Validation.SubmitGuardBounds | App.js:105 | a submission passes only with 1 to 200 characters of text and a category; empty text, over 200 characters, no category or an unparsable link are always refused; for plain-plane text the guard is exactly those four conditions |
| Validation.AnyChosenCategoryPasses | App.js:105 | the guard's verdict does not depend on which non-empty category is chosen |
| Validation.UnknownCategoryPasses | App.js:105 | a category outside the eight known names ("astrology") passes exactly when a known one ("science") would, for every text and link |
| Query.QueryFor | App.js:27-33 | the query filters on category exactly when the current category is not `all`, admits exactly the rows of that category (all rows for `all`), limits to 50 rows, newest first |
| Query.AnswerStaysInCategory | App.js:29-33 | unfolds the store's promise for the query `getFacts` builds: an answer to a filtered query holds at most 50 rows, all in the chosen category |
| Feed.App.constructor | App.js:17-20 | the page starts with no facts, the form closed, not loading, category `all` |
| Feed.App.ToggleForm | App.js:74 | the header button flips `showForm` and changes nothing else |
| Feed.App.BeginGetFacts | App.js:24-33 | starting a fetch raises `isLoading`, sends the query for the current category and changes nothing else |
| Feed.App.EndGetFacts | App.js:31-36 | on success the rows replace the list, on error the list is kept and an alert raised; `isLoading` ends false either way; when the answer is one the store could give to the query for the current category, the list then holds at most 50 facts, all of that category unless it is `all` |
| Feed.App.SelectCategory | App.js:22-41 | choosing the current category again starts no fetch; choosing another makes it current and starts a fetch for it |
| Feed.NewFactForm.constructor | App.js:96-99 | the form starts with empty fields and no upload in progress |
| Feed.NewFactForm.SetText | App.js:129 | typing sets the text field |
| Feed.NewFactForm.SetSource | App.js:137 | typing sets the source field |
| Feed.NewFactForm.SetCategory | App.js:142 | choosing sets the category field |
| Feed.NewFactForm.HandleSubmit | App.js:102-121 | run while the form is shown; an insert is attempted exactly when the guard holds; a refused submission leaves list, form flag and upload flag as they were and raises an alert; an attempted one prepends the new fact on success, keeps the list and alerts on failure, and always ends with the upload flag cleared and the form closed |
| Feed.FactItem.constructor | App.js:201 | a listed fact starts with no vote in flight |
| Feed.FactItem.HandleVote | App.js:203-215 | sends the increment of the chosen counter; on success patches the list by the fact's id, on failure leaves it unchanged with no alert; the busy flag ends false |
| Feed.StaleFetchScenario | App.js:22-41 | when a non-empty "science" answer resolves after the "finance" fetch, the page shows the science rows under category "finance", so it lists a fact outside the current category; loading was already cleared in between |

## Left out

- Rendering: the JSX of `App`, `Loader`, `Header`, `CategoryFilter`, `FactList` and `Fact`, the "no facts" message, and the category colours looked up for the tag (App.js:233) are presentation only.
- The store's queries (App.js:27-33, 108-111, 205-209) are calls into a remote service; their answers are parameters of the handlers, and query building, server-side ordering and `created_at` are not modelled (`Query.FactsQuery` only records what is asked for).
- The browser's `URL` constructor (App.js:87) is not part of this model: it is the `parse` parameter, returning the protocol or nothing when it throws.
- `alert` calls are recorded as a log of messages on `App`; the dialogs themselves are not modelled.
- Feed.NewFactForm: one object stands for one mounting of the form; closing the form (from the header or after an attempted insert) does not discard the object or clear its fields in the model, whereas the page unmounts the form and a reopened form starts empty.
- Feed.NewFactForm.HandleSubmit: the model performs the insert and the handling of its answer in one step, so the window in which `isUploading` is true, and anything other handlers do during the insert's `await`, is not modelled.
- Feed.FactItem.HandleVote: likewise the update and its answer are one step; `isUpdating` is true only inside the method, so the disabled buttons during a pending vote, and other handlers running during the `await`, are not modelled.
- The store is taken to return exactly one row on a successful insert or update; `newFact[0]` or `updatedFact[0]` of an empty answer (undefined in JavaScript) is not modelled.
- React scheduling: the mount-time run of the effect is a call to `BeginGetFacts` by the client of `App`; state updates are applied at once rather than batched.
- Vote counts and ids are unbounded integers; JavaScript numbers are doubles, exact for counts below 2^53.
