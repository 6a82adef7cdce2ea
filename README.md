# fynx-blog page logic in Dafny

A model of the three scripts behind the fynx-blog static site, with the properties they promise proved about the model:

- **blog.js**, the listing page. It loads the post index `posts.json` and renders one card per post. A search box narrows the list by a trimmed, lower-cased substring query over category, title, excerpt and tags. A row of filter buttons picks one category or "all".
- **post.js**, the detail page. It reads `?slug=` and looks the slug up in the index. It fills the header fields from the first matching record, then injects the post's pre-rendered fragment `./posts/<slug>.html`. Any failure ends in a single error message in the body.
- **grok-bg.js**, the decorative background. Ninety particles drift across a canvas and wrap around a 20-pixel margin. A faint line joins every pair closer than 120 pixels, with opacity `0.06 * (1 - d2/120²)`.

Files:

- `common.dfy` holds the shared values: `Option`, `Result`, a fetch `Response` (ok flag plus decoded body) and the `Post` record.
- `text.dfy` holds the string built-ins the listing uses: `toLowerCase`, `trim`, `includes` and `join`, over ASCII.
- `blog.dfy` holds the filter as functions with lemmas, and a `BlogPage` class for the page state. That class has the filter buttons' `active` flags in an array, the search box, the loaded posts and the grid.
- `post_page.dfy` holds the lookup and message strings as functions. The pure `Resolve` says where `main` ends. The `PostDocument` class runs `main` step by step over the document fields and is proved equal to `Resolve`.
- `grok_bg.dfy` holds the per-frame maths as functions with lemmas. An `Animator` class holds `W`, `H`, the canvas size and the particle list. `Seed` and `Step` are loops proved against those functions; `Resize` sets the size fields without a loop. `Launch` is the script's start-up sequence.

Host services become parameters:

- `encodeURIComponent` and the date formatting are function parameters.
- `URLSearchParams(...).get("slug")` is an `Option<string>`.
- Each fetch is a supplied `Response`. For fragments, it is a function from URL to `Response`.
- `Math.random()` is a supplied sequence of draws.
- The measured canvas rectangle, `devicePixelRatio` and the reduced-motion query are plain inputs.

Behaviour of the code that a reader might not expect:

- The animator has no pointer parallax, no frame-rate cap, no entity layers and no vignette (grok-bg.js:40-91).
- Under reduced motion `step` never runs, so nothing is drawn (grok-bg.js:97).
- A missing fragment leaves the header fields already written (post.js:30-37).
- Only `tags` are searched besides category, title and excerpt; no other field is (blog.js:44).

## Model

| member | source | states |
|---|---|---|
| Text.LowerChar | blog.js:40 | upper-case ASCII letters map to their lower-case letter (code point + 32); every other character, whitespace included, is unchanged |
| Text.Lower | blog.js:40-44 | lower-casing keeps the length; `LowerAt` shows it maps each character by `LowerChar` |
| Text.LowerAt | blog.js:44 | lower-casing keeps the length and changes each character on its own |
| Text.LowerIdempotent | blog.js:44 | lower-casing twice is lower-casing once |
| Text.TrimStartSpec | blog.js:40 | the left trim is the suffix after an all-whitespace prefix, and starts with a non-space or is empty |
| Text.TrimEndSpec | blog.js:40 | the right trim is the prefix before an all-whitespace suffix, and ends with a non-space or is empty |
| Text.Trim | blog.js:40 | the trimmed string is never longer than the input; `TrimEmptyIffBlank` and the two trim specs characterise it |
| Text.TrimEmptyIffBlank | blog.js:40 | the trimmed string is empty exactly when the input is all whitespace |
| Text.TrimLowerCommute | blog.js:40 | trimming and lower-casing commute |
| Text.Contains | blog.js:45 | `includes` holds exactly when the needle occurs at some index of the haystack |
| Text.OccursLower | blog.js:44-45 | an occurrence survives lower-casing both strings |
| Text.JoinHasPart | blog.js:44 | every part of a join can be found in the joined string |
| Text.Join | blog.js:44 | `JoinHasPart` proves every part can be found in the joined string |
| Blog.LoadPosts | blog.js:1-5 | a response that is not ok fails with "Failed to load posts.json"; otherwise the body is the index |
| Blog.NormalizeQuery | blog.js:40 | the query is empty exactly when the search box is absent or holds only whitespace |
| Blog.SearchText | blog.js:44 | category, title, excerpt and tags joined by single spaces; `SubstringMatches`, `QuerySpansFields` and `QueryFindsTag` say what a query finds in it |
| Blog.Haystack | blog.js:44 | the lower-cased search text; `HaystackIsLowerCase` proves it is already lower-case |
| Blog.Keep | blog.js:45-47 | a post passes when the query is empty or found in its haystack and the filter is "all" or its category; `FilterMembership` proves this iff for the shown list |
| Blog.Filtered | blog.js:43-48 | the list `apply` renders; `FilterMembership`, `FilteredPass`, `FilterIdempotent` and, through `Filter`, `FilterIsSubsequence` and `FilterCounts`, characterise it |
| Blog.FilterIsSubsequence | blog.js:43-48 | the filtered list is a subsequence of the posts, in their original order |
| Blog.FilterCounts | blog.js:43-48 | a kept post occurs as often as in the input, a rejected one not at all: nothing is duplicated or invented |
| Blog.FilterContains | blog.js:43-48 | membership in the result is membership in the input plus passing the predicate |
| Blog.FilterKeepsAll | blog.js:43-48 | when every post passes, the list is unchanged |
| Blog.FilterMembership | blog.js:44-47 | a post is shown iff it is in the index, the query is empty or found in its lower-cased haystack, and the filter is "all" or its category |
| Blog.FilteredPass | blog.js:43-48 | every shown post passes both tests |
| Blog.FilterIdempotent | blog.js:39-51 | filtering the filtered list again changes nothing |
| Blog.BlankQueryShowsAll | blog.js:40-46 | an absent, empty or all-whitespace query under "all" normalises to "" and shows the index unchanged |
| Blog.QueryIgnoresCase | blog.js:40-44 | queries differing only in letter case normalise alike and give the same list |
| Blog.HaystackIsLowerCase | blog.js:44 | the haystack is already lower-case |
| Blog.MissingTagsAreEmpty | blog.js:44 | a post without `tags` searches like one with an empty tag list |
| Blog.SubstringMatches | blog.js:44-45 | any substring of a post's joined fields, in any case, matches the post |
| Blog.QuerySpansFields | blog.js:44-45 | fields are joined by single spaces, so "category title" matches |
| Blog.QueryFindsTag | blog.js:44-45 | every tag, in any case, matches its post |
| Blog.AbsentLetterNeverMatches | blog.js:44-45 | a query with a letter that appears in no field, neither case, matches nothing |
| Blog.SampleRejectsZzz | blog.js:39-50 | on a one-post sample index, the query "zzz" shows nothing |
| Blog.SampleShowsOneCard | blog.js:12-26 | on that sample an empty query shows one card linking to `./post.html?slug=a` |
| Blog.PostCard | blog.js:12-26 | `CardsOnePerPost` proves each card carries its post's link, category, formatted date, title and excerpt |
| Blog.Cards | blog.js:36 | one card per post |
| Blog.CardsOnePerPost | blog.js:12-36 | one card per post, in order, carrying its fields and the link `./post.html?slug=` + encoded slug |
| Blog.DistinctSlugsDistinctLinks | blog.js:14 | with an injective encoding, posts with different slugs get different links |
| Blog.FirstNamed | blog.js:64 | the first button whose filter is the given name, or none when no button has it |
| Blog.SelectedFilter | blog.js:41 | the filter is "all" or the name of some button, and is never empty |
| Blog.NoActiveMeansAll | blog.js:41 | with no active button the filter is "all" |
| Blog.OnlyActiveSelected | blog.js:41-57 | when only button k is active, the filter is k's (an empty name reading as "all") |
| Blog.WithDefault | blog.js:63-65 | one flag per button; the only flag it changes is that of an "all" button, which becomes active; when some button is named "all", one such button ends up active |
| Blog.DefaultSelectsAll | blog.js:63-65 | starting from no active button, the start-up default leaves the filter at "all" |
| Blog.InitialViewIsUnfiltered | blog.js:67 | the first render equals the filtered view for a blank query under "all" |
| Blog.BlogPage.constructor | blog.js:28-31 | the page starts with the given buttons and search box, no posts and an unrendered grid |
| Blog.BlogPage.Render | blog.js:35-37 | the grid becomes one card per post of the list |
| Blog.BlogPage.Apply | blog.js:39-51 | the grid shows the cards of the posts passing the current query and active filter |
| Blog.BlogPage.OnInput | blog.js:61 | typing stores the new value and, once listening, re-applies the filter |
| Blog.BlogPage.Click | blog.js:53-59 | after a click the clicked button is the only active one, and the list is re-filtered by its category |
| Blog.BlogPage.Start | blog.js:28-73 | a failed load shows the fixed error notice; a good one stores the posts, activates the "all" button and renders every post |
| PostPage.FragmentUrl | post.js:17 | `FoundPostIsRendered` proves `./posts/<slug>.html` is the second and last URL fetched |
| PostPage.ErrorHtml | post.js:42-43 | the red error div; `MissingSlugFailsFirst`, `IndexFailureReported`, `UnknownSlugFetchesNoFragment` and `FoundPostIsRendered` say which message it wraps on each path |
| PostPage.LoadIndex | post.js:10-14 | a response that is not ok fails with "posts.json failed to load"; otherwise the body is the index |
| PostPage.LoadPostHtml | post.js:16-20 | a response that is not ok fails with "Missing: posts/<slug>.html"; otherwise the body is the fragment |
| PostPage.Find | post.js:27 | none iff no record carries the slug; otherwise a record of the index with that slug |
| PostPage.FindReturnsFirst | post.js:27 | the lookup returns the first record whose slug equals the parameter |
| PostPage.FindUnique | post.js:27 | with unique slugs, the lookup returns the one record carrying the slug |
| PostPage.HeaderOf | post.js:30-34 | `FoundPostIsRendered` proves the header is "Decrypt — " + title and the matched record's category, formatted date, title and excerpt |
| PostPage.Resolve | post.js:22-44 | `PostDocument.Start` is proved to end as it says; the path lemmas below fix its result for a missing slug, a failed index, an unknown slug and a found post |
| PostPage.MissingSlugFailsFirst | post.js:23-24 | a missing or empty slug shows "Missing ?slug=" with nothing fetched |
| PostPage.IndexFailureReported | post.js:26 | a failed index fetch shows "posts.json failed to load" after fetching only the index |
| PostPage.UnknownSlugFetchesNoFragment | post.js:27-28 | an unknown slug shows "Post not found in posts.json", writes no header and fetches no fragment |
| PostPage.FoundPostIsRendered | post.js:30-37 | for the first matching record: title "Decrypt — " + title, the fields copied, `./posts/<slug>.html` requested, and the body either the fragment or the "Missing" error |
| PostPage.OutcomeIsFragmentOrError | post.js:22-44 | for every modelled response, the run ends with the fetched fragment or one of the four error messages |
| PostPage.MissingSlugScenario | post.js:26-28 | `?slug=missing` on a one-post index shows "not found" after one fetch |
| PostPage.PostDocument.constructor | post.js:30-37 | the document starts with the given header and body and no fetches |
| PostPage.PostDocument.ShowError | post.js:40-44 | the body becomes the red error div around the message |
| PostPage.PostDocument.Start | post.js:22-44 | the fetch log, the header fields and the body end as `Resolve` says; fields not reached keep their values |
| GrokBg.Dpr | grok-bg.js:7 | an absent or zero ratio gives 1; a non-negative ratio gives a value in (0, 2], the ratio itself up to 2 |
| GrokBg.LogicalExtent | grok-bg.js:12-13 | at least 1, and the floor of the measured extent when that is at least 1 |
| GrokBg.BackingExtent | grok-bg.js:14-15 | the backing extent is never negative for a non-negative extent and ratio |
| GrokBg.BackingBounds | grok-bg.js:14-15 | for a ratio in [1, 2] the backing size lies between the logical size and twice it |
| GrokBg.ScaleBelow | grok-bg.js:24 | a draw in [0, 1) times a positive span stays in [0, span) |
| GrokBg.Rand | grok-bg.js:24 | for min < max and a draw in [0, 1), the result lies in [min, max) |
| GrokBg.Spawn | grok-bg.js:29-36 | from six draws in [0, 1), the new dot lies on the canvas with speed, radius and opacity in range |
| GrokBg.Seeded | grok-bg.js:26-38 | exactly n dots; `SeededSpec` gives each one's draws and range |
| GrokBg.SeededSpec | grok-bg.js:26-38 | dot k is built from draws 6k..6k+5, and every fresh dot lies on the canvas with speed, radius and opacity in range |
| GrokBg.Wrap | grok-bg.js:55-58 | the result stays within the margin; past either margin it jumps to the opposite one; inside it is unchanged |
| GrokBg.Advance | grok-bg.js:52-58 | the moved dot is inside the widened field and keeps its velocity, radius and opacity |
| GrokBg.AdvanceAll | grok-bg.js:51-59 | one dot out per dot in; `AdvanceAllSpec` gives their positions |
| GrokBg.AdvanceAllSpec | grok-bg.js:51-59 | after an update every dot is within the margins; vx, vy, r, a are unchanged; a dot that stays inside moves by its velocity |
| GrokBg.FramesStayInField | grok-bg.js:51-59 | after any number of frames, drifting dots stay drifting and within the margins |
| GrokBg.RestingDotsStay | grok-bg.js:51-59 | dots at rest inside the field never move |
| GrokBg.Dist2NonNegative | grok-bg.js:66-68 | the squared distance is never negative |
| GrokBg.LinkAlpha | grok-bg.js:71-72 | `LinkAlphaRange`, `LinkAlphaVanishesAtLinkDist` and `LinkAlphaDecreasing` bound it and show it falls with distance |
| GrokBg.LinkAlphaRange | grok-bg.js:70-72 | a drawn line's opacity lies in (0, 0.06] |
| GrokBg.LinkAlphaVanishesAtLinkDist | grok-bg.js:69-72 | the opacity formula reaches 0 at the link distance |
| GrokBg.LinkAlphaDecreasing | grok-bg.js:71-72 | closer pairs get strictly more opaque lines |
| GrokBg.RowLinksFrom | grok-bg.js:64-65 | the inner loop for dot i only pairs i with later dots |
| GrokBg.RowLinksLinked | grok-bg.js:64-72 | every line of the inner loop joins a close pair with the opacity for its distance |
| GrokBg.RowLinksOrdered | grok-bg.js:64 | the inner loop's lines come in increasing partner order |
| GrokBg.RowLinksComplete | grok-bg.js:64-70 | every close later partner gets a line in the inner loop |
| GrokBg.LinksBeforeLinked | grok-bg.js:62-80 | after n outer rounds every line is valid and starts below n |
| GrokBg.LinksBeforeOrdered | grok-bg.js:62-80 | the lines so far come in strictly increasing pair order |
| GrokBg.LinksBeforeComplete | grok-bg.js:62-80 | every close pair starting below n already has a line |
| GrokBg.LinksExact | grok-bg.js:62-80 | a frame's lines are exactly the close pairs i < j, each once, in loop order, with the right opacity |
| GrokBg.Links | grok-bg.js:62-80 | `LinksExact` proves it is exactly the close pairs i < j in loop order, and `StrokeLinks` that the loops compute it |
| GrokBg.LinkAlphasInRange | grok-bg.js:62-72 | every stroked line has opacity in (0, 0.06] |
| GrokBg.StrokeLinks | grok-bg.js:62-80 | the nested loops produce exactly that list of lines |
| GrokBg.Reduced | grok-bg.js:94 | `Launch` proves that when it holds no step runs and no frame is drawn |
| GrokBg.Animator.constructor | grok-bg.js:7-8 | the ratio is fixed once; W and H start at 0 with no dots |
| GrokBg.Animator.Resize | grok-bg.js:10-17 | W and H become the clamped floors of the measured size, and the canvas becomes floor(W·DPR) × floor(H·DPR) |
| GrokBg.Animator.Seed | grok-bg.js:26-38 | the previous dots are discarded and exactly N dots are pushed, dot k from draws 6k..6k+5 |
| GrokBg.Animator.ResizeAndSeed | grok-bg.js:99-102 | resize then seed; with draws in [0, 1) the field is valid and every dot is on the canvas |
| GrokBg.Animator.Step | grok-bg.js:40-91 | every dot is moved in place as `AdvanceAll` says, the lines are `Links` of the moved dots, and validity is kept |
| GrokBg.Launch | grok-bg.js:2-97 | without a canvas nothing happens; otherwise the logical and backing sizes are set, seed always runs, and one step runs only without reduced motion |

## Left out

- Network I/O: `fetch`, the `cache: "no-store"` option and body decoding become supplied responses. A body that is not valid JSON, and the error it would raise, are not modelled.
- DOM lookups and listener registration. The grid, the detail fields and the `#postBody` element are fields that are assumed to exist. Listening is a flag set by `main`.
- HTML markup. A card is the record of the fields its template interpolates, and the listing is the sequence of cards rather than their joined markup. The markup is not escaped, and the model claims no escaping.
- `console.error` in both error handlers.
- A `fetch` that rejects, as when offline or on a DNS failure, reaches the handler at post.js:40-43 with the host's own message. The model covers only responses that arrive, so that message is not modelled.
- `formatDate` and `toLocaleDateString` are a host function parameter. `encodeURIComponent` and `URLSearchParams` are a parameter and an input.
- Text.Lower: covers ASCII letters only; Unicode case mapping is not modelled.
- Text.TrimStartSpec: treats only the ASCII whitespace characters as spaces, not the Unicode space separators or line terminators beyond them.
- Blog.BlogPage.Start: only a failed load reaches the error notice. Errors thrown by DOM calls are not modelled.
- All canvas drawing: clearing, the radial gradient, stroking lines and filling dots. A frame is described by the moved dots and the list of lines with their opacities. The dots drawn are the particle list itself.
- `requestAnimationFrame` self-rescheduling: the host calls `Animator.Step` once per frame. `Launch` covers only the first frame.
- GrokBg: positions, velocities and opacities are reals, so IEEE rounding, NaN and infinities are not modelled.
- GrokBg.Animator.Seed: needs at least 6·N draws up front, where the script calls `Math.random()` on demand.
- GrokBg.Dpr: says nothing about a negative or NaN `devicePixelRatio`, which the host never reports.
- The first call of `resize` runs before any listener. The model's `Animator.constructor` takes the canvas's initial pixel size as given, since the document sets it.
