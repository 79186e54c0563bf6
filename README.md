# Artist portal: onboarding wizard, directory filter and dashboard

This project models the logic of three pages of an artist-booking portal:

- **The onboarding wizard** (`onboarding.dfy`, module `Onboarding`). A three-step form.
  "Next" checks only the fields of the current step and moves one step on, capped at 3.
  "Previous" moves back and never goes below 1. Two checkbox lists (categories and
  languages) are kept both in component state and in the form values. Submitting checks
  the whole schema; on success every field, both lists and the step counter go back to
  their initial values. The component state is the class `Wizard`. The schema, the
  per-step field groups and the step arithmetic are pure functions beside it.
- **The artist directory** (`directory.dfy`, module `Directory`). A fixed list of
  listings narrowed by four criteria combined with AND: a case-insensitive free-text
  search over name, category and bio; a case-insensitive category selector; an exact
  location selector; and an inclusive price bracket written `"min-max"`. Each selector
  is switched off by `"all"`. The module also models the page's `locations` value:
  "All" and then each distinct location in order of first appearance. The page computes
  this list, but its location selector does not use it; the selector's options are
  written out by hand.
- **The dashboard** (`dashboard.dfy`, module `Dashboard`). A fixed table of submissions
  narrowed by a free-text search over name, category and city and by a status selector.
  It also computes three counters (total, pending, approved) and maps a status to the
  badge shown in the table.

Two support modules hold what the pages borrow from the JavaScript runtime:

- `seqs.dfy` (`Seqs`) has `Array.prototype.filter`, `map`, and the ordered
  de-duplication `Array.from(new Set(xs))`.
- `text.dfy` (`Text`) has ASCII `toLowerCase`, `includes` as substring search,
  `split` on one character, and `Number` on a string of digits.

The mock records are values. Every filter returns a new sequence and leaves its input as
it was, which the value semantics of `seq` states by itself.

## Model

| member | source | states |
|---|---|---|
| Seqs.Filter | src/pages/Artists.tsx:107 | The filtered list is no longer than the input. Every kept element satisfies the predicate and comes from the input. Every input element that satisfies it is kept. |
| Seqs.FilterIsSubsequence | src/pages/Dashboard.tsx:93 | A filtered list is a subsequence of its input: the kept elements stay in source order. |
| Seqs.FilterMultiplicity | src/pages/Artists.tsx:107 | A kept element appears exactly as often as in the input; a rejected one does not appear. |
| Seqs.FilterNarrows | src/pages/Artists.tsx:121 | Filtering with a predicate that implies another equals filtering the other's result again, so it is a subsequence of that result. |
| Seqs.DisjointFiltersBound | src/pages/Dashboard.tsx:103-104 | Two filters whose predicates never hold together keep at most as many elements as the input has, in total. |
| Seqs.FilterCountsKey | src/pages/Dashboard.tsx:103-104 | Counting the elements whose key equals `k` gives the multiplicity of `k` in the mapped key column. |
| Seqs.MapSeq | src/pages/Artists.tsx:126 | The mapped list has the input's length, and entry `i` is the function applied to input entry `i`. |
| Seqs.Dedup | src/pages/Artists.tsx:126 | The de-duplicated list has no repeated entry. It holds exactly the input's values. |
| Seqs.DedupFirstOccurrenceOrder | src/pages/Artists.tsx:126 | The distinct values are listed in the order of their first occurrence in the input. |
| Text.ToLower | src/pages/Artists.tsx:108 | Lower-casing keeps the length and maps every character to its ASCII lower-case form. |
| Text.ToLowerIdempotent | src/pages/Artists.tsx:112 | Lower-casing an already lower-cased string changes nothing. |
| Text.Contains | src/pages/Artists.tsx:108 | `includes`: some suffix of the string starts with the needle. `Text.ContainsIffOccurs` shows it is exactly positional occurrence. |
| Text.ContainsIffOccurs | src/pages/Artists.tsx:108-110 | The recursive `includes` holds exactly when the needle occurs at some position of the haystack. |
| Text.ContainsEmpty | src/pages/Artists.tsx:108 | Every string includes the empty string. |
| Text.ContainsTransitive | src/pages/Artists.tsx:108-110 | A string that includes `t` includes everything that `t` includes. |
| Text.ContainsToLower | src/pages/Artists.tsx:108-110 | If `s` includes `t`, the lower-cased `s` includes the lower-cased `t`. |
| Text.Split | src/pages/Artists.tsx:117 | `split` returns at least one piece, and no piece contains the separator. |
| Text.JoinSplit | src/pages/Artists.tsx:117 | Joining the pieces with the separator gives back the original string. |
| Text.SplitAfterPiece | src/pages/Artists.tsx:117 | A separator-free piece, a separator and a rest split into that piece followed by the rest's pieces. |
| Text.SplitNoSeparator | src/pages/Artists.tsx:117 | A string without the separator splits into itself alone. |
| Text.Decimal | src/pages/Artists.tsx:207-209 | The decimal spelling of a number is non-empty, all digits, and has no `-`. |
| Text.ParseNumber | src/pages/Artists.tsx:117 | `Number` on a string: the value of an empty or all-digit string, and NaN (`None`) otherwise. `Text.ParseDecimal` shows it reads back every decimal spelling. |
| Text.ParseDecimal | src/pages/Artists.tsx:117 | `Number` applied to the decimal spelling of `n` gives back `n`. |
| Onboarding.WithText | src/pages/ArtistOnboard.tsx:194-201 | Typing into a text field sets that field and leaves every other field and both lists as they were. |
| Onboarding.DefaultValues | src/pages/ArtistOnboard.tsx:40-51 | The values the form starts from and returns to on reset: every text field empty and both lists empty. Its behaviour is stated by `Onboarding.DefaultsBlockEveryStep` and `Onboarding.Wizard.Submit`. |
| Onboarding.FieldValid | src/pages/ArtistOnboard.tsx:17-28 | The rule of each schema field: minimum lengths 2, 10, 50, 1, 2 and 1 for name, phone, bio, fee range, location and experience; the e-mail check; at least one category and one language; the portfolio empty or a URL. Stated field by field in `Onboarding.StepGates`. |
| Onboarding.FormValid | src/pages/ArtistOnboard.tsx:17-28 | Every field of the schema satisfies its rule. `Onboarding.StepsCoverSchema` relates it to the three steps. |
| Onboarding.FieldsToValidate | src/pages/ArtistOnboard.tsx:111-115 | The field group that "Next" checks: name, email and phone on step 1; bio, categories and languages on step 2; fee range, location and experience on any other step. `Onboarding.FieldsToValidateByStep` checks it against an independent field-to-step map. |
| Onboarding.StepValid | src/pages/ArtistOnboard.tsx:118 | The result of validating the current step's fields: every field of the group satisfies its rule. `Onboarding.StepGates` spells it out per step. |
| Onboarding.AllFieldsComplete | src/pages/ArtistOnboard.tsx:17-28 | The schema has a rule for every field of the form. |
| Onboarding.FieldsToValidateByStep | src/pages/ArtistOnboard.tsx:111-115 | On steps 1 to 3, a field is checked on step `k` exactly when it belongs to group `k`. The portfolio belongs to no group. |
| Onboarding.StepGates | src/pages/ArtistOnboard.tsx:17-26 | Step 1 passes iff the name has at least 2 characters, the email is valid and the phone has at least 10. Step 2 passes iff the bio has at least 50 characters and at least one category and one language are chosen. Step 3 passes iff the fee range and experience are non-empty and the location has at least 2 characters. |
| Onboarding.BioBoundary | src/pages/ArtistOnboard.tsx:21 | With the lists filled in, a 49-character bio fails step 2 and a 50-character bio passes it. |
| Onboarding.StepsCoverSchema | src/pages/ArtistOnboard.tsx:17-28 | The whole schema holds iff all three steps pass and the portfolio is empty or a URL. |
| Onboarding.DefaultsBlockEveryStep | src/pages/ArtistOnboard.tsx:38-52 | The default values pass no step and not the schema, although their empty portfolio is accepted. |
| Onboarding.NextStepOf | src/pages/ArtistOnboard.tsx:118-120 | When the step's fields are invalid the step stays where it is. When they are valid it moves forward by exactly one below 3 and stays at 3 from 3 on. From a step in 1..3 the result stays in 1..3. |
| Onboarding.PrevStepOf | src/pages/ArtistOnboard.tsx:124 | Every step from 2 on moves back by exactly one, and step 1 (or below) goes to 1. From a step in 1..3 the result stays in 1..3. |
| Onboarding.StepRoundTrips | src/pages/ArtistOnboard.tsx:119-124 | Away from the ends, "Previous" undoes a successful "Next" and "Next" undoes "Previous". "Next" stays at 3 and "Previous" stays at 1. |
| Onboarding.Toggle | src/pages/ArtistOnboard.tsx:74-77 | Checking appends the id after the unchanged list. Unchecking removes every occurrence of the id, keeps every other entry and keeps their order. |
| Onboarding.UncheckMultiplicity | src/pages/ArtistOnboard.tsx:77 | Unchecking keeps every other entry exactly as often as it was there. |
| Onboarding.UncheckUndoesCheck | src/pages/ArtistOnboard.tsx:74-77 | Unchecking an id that is absent changes nothing. Checking and then unchecking such an id restores the list. |
| Onboarding.Wizard.constructor | src/pages/ArtistOnboard.tsx:33-52 | The wizard starts on step 1 with both lists empty and the form at its default values. |
| Onboarding.Wizard.StepTitle | src/pages/ArtistOnboard.tsx:181 | The current step's title is always one of the three step titles, because the index is always in range. |
| Onboarding.Wizard.Edit | src/pages/ArtistOnboard.tsx:194-201 | Typing updates only the named field. The step and both lists are unchanged. |
| Onboarding.Wizard.NextStep | src/pages/ArtistOnboard.tsx:110-121 | The step becomes `NextStepOf(step, fields of the step valid)`. Form values and lists are unchanged, and the step stays in 1..3. |
| Onboarding.Wizard.PrevStep | src/pages/ArtistOnboard.tsx:123-125 | The step becomes `PrevStepOf(step)` without any validation. Everything else is unchanged. |
| Onboarding.Wizard.HandleCategoryChange | src/pages/ArtistOnboard.tsx:74-81 | The category list is toggled and the form's `categories` value becomes the same list. The step and the language list are unchanged. |
| Onboarding.Wizard.HandleLanguageChange | src/pages/ArtistOnboard.tsx:83-90 | The language list is toggled and the form's `languages` value becomes the same list. The step and the category list are unchanged. |
| Onboarding.Wizard.Submit | src/pages/ArtistOnboard.tsx:92-108 | Submit succeeds exactly when the whole schema holds. On success the step is 1, both lists are empty and the form is at its defaults; otherwise nothing changes. |
| Directory.MatchesSearch | src/pages/Artists.tsx:108-110 | The lower-cased query occurs in the lower-cased name, category or bio. |
| Directory.MatchesCategory | src/pages/Artists.tsx:112 | The selector is "all" or equals the category once both are lower-cased. `Directory.CategoryIgnoresCase` and `Directory.DjSelectsDJ` state its behaviour. |
| Directory.MatchesLocation | src/pages/Artists.tsx:113 | The selector is "all" or equals the location exactly. `Directory.LocationIsCaseSensitive` states its behaviour. |
| Directory.PriceBounds | src/pages/Artists.tsx:117 | The bracket string split at "-", its first two pieces read as numbers; no bounds when there is no second piece or either piece is not a number. `Directory.BracketInclusive` and `Directory.AllHasNoBounds` state its behaviour. |
| Directory.MatchesPrice | src/pages/Artists.tsx:115-119 | The selector is "all", or both bounds parse and the minimum price lies between them, both ends included. `Directory.BracketInclusive` and `Directory.SelectBrackets` state its behaviour. |
| Directory.Matches | src/pages/Artists.tsx:108-121 | All four criteria hold together. `Directory.FilteredArtists` and `Directory.StricterCriteriaNeverAdd` use it. |
| Directory.FilteredArtists | src/pages/Artists.tsx:106-123 | The result is a subsequence of the data. Every listing in it meets all four criteria, and every listing that meets them is in it. |
| Directory.NoCriteriaShowsAll | src/pages/Artists.tsx:107-121 | With an empty query and every selector on "all", the result is the whole list. |
| Directory.NothingFoundIffNoMatch | src/pages/Artists.tsx:327 | The result is empty exactly when no listing meets the criteria. |
| Directory.FilteredMultiplicity | src/pages/Artists.tsx:107-121 | A listing appears in the result as often as in the data if it matches, otherwise not at all. |
| Directory.CategoryIgnoresCase | src/pages/Artists.tsx:112 | A category selector value whose lower-cased form is not "all" selects the same listings as its lower-cased form. The "all" sentinel itself is compared case-sensitively; the page's options only offer the lower-case "all". |
| Directory.DjSelectsDJ | src/pages/Artists.tsx:112 | The selector value "dj" matches exactly the categories that lower-case to "dj", "DJ" among them. |
| Directory.LocationIsCaseSensitive | src/pages/Artists.tsx:113 | A listing in "Mumbai" is selected by "Mumbai" and not by "mumbai". |
| Directory.AllHasNoBounds | src/pages/Artists.tsx:115-117 | The string "all" does not parse as a bracket. |
| Directory.BracketInclusive | src/pages/Artists.tsx:115-119 | A bracket spelled "lo-hi" matches exactly the minimum prices from lo to hi, both ends included. |
| Directory.SelectBrackets | src/pages/Artists.tsx:207-209 | Each of the three price options selects its inclusive range. A minimum price of 25000 falls into both "0-25000" and "25000-50000". |
| Directory.StricterCriteriaNeverAdd | src/pages/Artists.tsx:108-121 | With criteria at least as strict on every field, the result equals the old result filtered again, so it is a subsequence of it. |
| Directory.LongerQueryNeverAdds | src/pages/Artists.tsx:108-110 | Extending the search query gives a subsequence of the previous result. |
| Directory.Locations | src/pages/Artists.tsx:126 | The list starts with "All" and has no repeated location after it. Every listing's location is in it, and every entry after "All" is some listing's location. |
| Directory.LocationsInFirstOccurrenceOrder | src/pages/Artists.tsx:126 | The locations after "All" appear in the order of their first occurrence in the data. |
| Dashboard.Matches | src/pages/Dashboard.tsx:94-98 | The lower-cased search term occurs in the lower-cased name, category or city, and the status equals the selector or the selector is "all". |
| Dashboard.FilteredSubmissions | src/pages/Dashboard.tsx:93-99 | The rows are a subsequence of the data. Every row matches the search on name, category or city and has the selected status (or the selector is "all"). Every such submission is a row. |
| Dashboard.FilteredMultiplicity | src/pages/Dashboard.tsx:93-99 | A submission appears among the rows as often as in the data if it matches, otherwise not at all. |
| Dashboard.NoFilterShowsAll | src/pages/Dashboard.tsx:94-97 | With an empty search and status "all", the whole table is shown. |
| Dashboard.StatusOnly | src/pages/Dashboard.tsx:97 | With an empty search and a status other than "all", the rows are exactly the submissions with that status. |
| Dashboard.NothingFoundIffNoMatch | src/pages/Dashboard.tsx:296 | The empty-state message shows exactly when no submission matches. |
| Dashboard.LongerSearchNeverAdds | src/pages/Dashboard.tsx:94-96 | Extending the search term gives a subsequence of the previous rows. |
| Dashboard.StatusCount | src/pages/Dashboard.tsx:103-104 | How often a status occurs in the status column, counted as a multiset independently of any filter. `Dashboard.ComputeStats` shows the counters equal it. |
| Dashboard.ComputeStats | src/pages/Dashboard.tsx:101-105 | The total is the number of submissions. Pending and approved equal the number of occurrences of those statuses, and together they never exceed the total. |
| Dashboard.ApprovedFilterMatchesCounter | src/pages/Dashboard.tsx:97-104 | Selecting "approved" with an empty search lists as many rows as the approved counter, and every row is approved. |
| Dashboard.StatusBadge | src/pages/Dashboard.tsx:80-91 | The three known statuses get their capitalised name and their own colour. Any other status is shown as its raw string in the neutral style, and only then. |

## Left out

- `src/pages/Index.tsx` is not part of this model. It is promotional markup; its search box state is shown in the input but never drives filtering or navigation.
- Rendering is not modelled: JSX, styling, links, icons, progress markers and the directory's grid/list view toggle.
- `onSubmit` side effects are not modelled: the console log, the one-second simulated delay and the toast. Only the reset is.
- The e-mail and URL checks of the validation library are not modelled. They enter the model as the two predicates of `Validators`.
- Form-library internals are not modelled. Field validation (`trigger`) is modelled as evaluating the schema rules of the step's fields. Submission (`handleSubmit`) is modelled as evaluating the whole schema before the reset.
- `Onboarding.Wizard.NextStep`: the asynchronous wait for validation is not modelled. The step update is taken to happen atomically with the validation result.
- Ratings and the dashboard's fixed average rating are floating-point values no logic reads. They are not kept in the records.
- Date formatting with `toLocaleDateString` depends on the locale and is not modelled.
- `Text.ToLower`: lower-cases ASCII letters only. Full Unicode case mapping is not modelled. String length counts characters, not UTF-16 code units.
- `Onboarding.FieldValid`: the minimum lengths count characters, while the validation library counts UTF-16 code units. The two differ only for characters outside the Basic Multilingual Plane.
- `Text.ParseNumber`: reads only empty or all-digit strings (the empty string as 0, as `Number` does). It does not model `Number`'s handling of whitespace, signs, decimal points, exponents or hexadecimal. Any other string reads as NaN, so no listing is inside the bracket.
- The `useMemo` cache around the directory filter is not modelled. It memoises a pure function.
- No properties are stated about the specific mock records (`Directory.ArtistsData` and `Dashboard.ArtistSubmissions` copy the pages' constant arrays); the filter and counter lemmas hold for every list of records. For example, "searching dj shows only DJ listings" depends on the data and is not stated.
- `Onboarding.Wizard.NextStep`: the "Next" button only appears on steps 1 and 2, so the page never checks the third field group (fee range, location, experience) through it; those fields are checked only by the whole-schema check on submit. The model allows `NextStep` from step 3, as the handler's code does.
- The submit button only appears on step 3, but the model allows `Submit` from any step. The schema check makes step placement irrelevant to the outcome.
