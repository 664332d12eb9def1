# Portfolio website: a verified model of its interactive core

This project models the behaviour of a React portfolio website in Dafny:

- **Scroll-stack engine.** Cards pin, shrink, rotate and blur as the page scrolls. A card locks into a stack slot when it reaches its pin start. The component fires a completion callback once each time the last card enters its pin window.
- **Contact form.** Field validation, the change and blur handlers, and the submit path, which validates every required field and then sends and resets.
- **Skills page.** The category / search / sort pipeline, the per-group grids and the labels.
- **GitHub helpers.** They turn the GitHub API's repository list and repository contents into project cards.
- **Header.** The theme toggle (persisted), the mobile menu and the active-link rule.
- **Home page.** Tag colours, the hero title's letter spans, fade-in ref registration and the project cards.
- **About page.** Expandable items, the signature stroke animation and the skill bars.

The model is organised as follows:

- **Modules.** There is one module per source file.
  - `ScrollStack`, `Contact`, `Skills`, `GitHub`, `Header`, `Home` and `About` model the source files.
  - `Signature` holds the stroke-width banding that Home and About share.
  - `Text` holds the string primitives the pages use: `trim`, `toLowerCase`, `includes`, `startsWith`, `endsWith`, the collation behind `localeCompare`, and `||` on strings.
  - `Wrappers` holds `Option` and map lookup.
- **Mutable state becomes classes.** State that the source mutates in place becomes a class whose methods carry `modifies` clauses:
  - React refs and state: `StackEngine`, `ContactForm`, `HeaderState`, `ExpandState`, `SkillBars`, `FadeInRefs` and `ProjectsState`.
  - The sort array: `Skills.SortSkills` sorts an `array` in place.
- **Loops become methods.** Each loop in the source becomes a `method` with a `while` loop. Its `ensures` ties the result to a specification function, and lemmas prove what the source promises about that function.
- **Inputs.** DOM measurements, the scroll offset, fetch responses, `localStorage` and the mail service's outcome are all inputs.

## Model

| member | source | states |
|---|---|---|
| ScrollStack.ParsePercentage | src/components/ScrollStack.jsx:42-47 | a string holding '%' is that share of the container height (100% is the whole height, 0% is zero); other strings give their leading number; numbers give themselves |
| ScrollStack.PercentageWithinContainer | src/components/ScrollStack.jsx:42-47 | a percentage between 0 and 100 lands between 0 and the container height |
| ScrollStack.CalculateProgress | src/components/ScrollStack.jsx:36-40 | progress is 0 before the start and 1 past the end. For a proper window it stays within [0, 1] and is linear in between: progress · (end − start) = scrollTop − start |
| ScrollStack.ProgressMonotone | src/components/ScrollStack.jsx:36-40 | progress never decreases as the scroll offset grows |
| ScrollStack.ClampBounds | src/components/ScrollStack.jsx:248-251 | the translation is clamped to [−h, 2h] and is left as it is inside that range |
| ScrollStack.Frame.PinEnd | src/components/ScrollStack.jsx:141-147 | the pin end (section bottom or end marker, whichever comes first) is never before the pin start |
| ScrollStack.Frame.TopReached | src/components/ScrollStack.jsx:155-163 | the highest index whose pin start is reached, or 0; no later card is reached |
| ScrollStack.TopCardIndex | src/components/ScrollStack.jsx:155-163 | the blur pass's scan returns exactly that top index |
| ScrollStack.BlurByDepth | src/components/ScrollStack.jsx:154-169 | cards at or above the top index are sharp; a card below it is blurred by its depth times blurAmount |
| ScrollStack.ScaleEndpoints | src/components/ScrollStack.jsx:149-151 | scale is 1 before the trigger start and the card's target scale (baseScale + i·itemScale) past the trigger end |
| ScrollStack.ScaleNonIncreasing | src/components/ScrollStack.jsx:149-151 | scrolling further never enlarges a card whose target scale is at most 1 |
| ScrollStack.CountStacked | src/components/ScrollStack.jsx:175-183 | the lock-time loop counts the cards below i that hold a slot |
| ScrollStack.CountSlottedAll | src/components/ScrollStack.jsx:175-183 | when every lower card holds a slot, the count is i |
| ScrollStack.LockOrRelease | src/components/ScrollStack.jsx:171-193 | a card takes a slot (and its entry offset) on first reaching its pin start, and gives it up when scrolled back above it |
| ScrollStack.TableAfterSlots | src/components/ScrollStack.jsx:171-193 | after a tick: a card holds a slot exactly when its pin start is reached; a slot held while reached is kept with its entry offset; a newly locked card gets a slot no larger than its index and records the scroll offset; cards not yet processed are untouched |
| ScrollStack.TableAfterKeys | src/components/ScrollStack.jsx:171-193 | which cards hold a slot after the first k cards, with the slot and entry maps sharing their keys |
| ScrollStack.TableAfterAt | src/components/ScrollStack.jsx:171-193 | the slot and entry offset a single card holds after the first k cards |
| ScrollStack.StepCardEffect | src/components/ScrollStack.jsx:171-193 | one card's step: it holds a slot exactly when reached, keeps a slot it held, or locks at the count of slotted cards below it with the current offset as its entry; other cards are untouched |
| ScrollStack.CardTransformShape | src/components/ScrollStack.jsx:137-258 | a card's translation stays within the clamp window and is zero before its pin start; blur is zero at or above the top card and when blur is off; rotation is zero when off; the scale is the card's progress-driven scale |
| ScrollStack.TableAfterFrame | src/components/ScrollStack.jsx:171-193 | later cards' steps never touch an earlier card's slot |
| ScrollStack.ApproachBranchUnreachable | src/components/ScrollStack.jsx:212-225 | the "approaching but not yet locked" translation branches are dead: a reached card always holds a slot when its translation is computed |
| ScrollStack.ScrollAboveAllEmptiesTable | src/components/ScrollStack.jsx:189-193 | scrolling above every pin start clears both slot maps |
| ScrollStack.TickIdempotent | src/components/ScrollStack.jsx:171-193 | a second tick at the same scroll offset leaves the slot table unchanged |
| ScrollStack.StableTableFixed | src/components/ScrollStack.jsx:171-193 | a table whose slotted cards are exactly the reached ones is a fixed point of the tick |
| ScrollStack.SlotsStayBounded | src/components/ScrollStack.jsx:175-184 | every slot value stays at most its card index |
| ScrollStack.OrderedCardsTakeOwnSlot | src/components/ScrollStack.jsx:175-184 | with pin starts in index order, each locked card's slot equals its index, so the stack is contiguous from slot 0 |
| ScrollStack.OrderedSlotOfReached | src/components/ScrollStack.jsx:171-184 | with pin starts in index order, a reached card sits in the slot equal to its index |
| ScrollStack.TranslationPhases | src/components/ScrollStack.jsx:199-246 | the translation is 0 before the pin start; while pinned, the card's screen position is fixed by its slot (stackPx + slot·itemStackDistance); past the pin end it is frozen at its pin-end value |
| ScrollStack.OrderedStackScreenPosition | src/components/ScrollStack.jsx:199-211 | with pin starts in index order, a pinned card's top edge sits at stackPx + i·itemStackDistance on screen |
| ScrollStack.DefaultStackSpacing | src/components/ScrollStack.jsx:199-211 | with the default props in a 500px container, pinned cards sit 100px, 130px, 160px, … from the top |
| ScrollStack.TransformsAt | src/components/ScrollStack.jsx:253-258 | the i-th transform of a tick is card i's translation, scale, rotation and blur for its slot |
| ScrollStack.ComputeTransform | src/components/ScrollStack.jsx:137-258 | the per-card computation yields that transform |
| ScrollStack.CacheAfterEntries | src/components/ScrollStack.jsx:260-276 | after a tick, each card's cache entry is its new transform if that transform moved past an epsilon (or nothing was cached); otherwise the old entry stays |
| ScrollStack.CacheAfterUntouched | src/components/ScrollStack.jsx:260-276 | cards not yet processed keep their cached transform |
| ScrollStack.WrittenAfterMembers | src/components/ScrollStack.jsx:260-276 | the cards whose style is written are exactly those whose transform moved, in increasing order |
| ScrollStack.NothingChangedNothingWritten | src/components/ScrollStack.jsx:260-276 | when no transform moved, nothing is written |
| ScrollStack.RepeatTickWritesNothing | src/components/ScrollStack.jsx:260-276 | repeating a tick with the same transforms writes no style |
| ScrollStack.FiresOncePerEntry | src/components/ScrollStack.jsx:278-286 | over any run of ticks, the completion callback fires exactly once per entry of the last card into its pin window |
| ScrollStack.Tick | src/components/ScrollStack.jsx:135-287 | the per-card loop produces the slot table, transform cache and write list of the specification functions |
| ScrollStack.StackEngine.constructor | src/components/ScrollStack.jsx:25-34 | a fresh engine has no cards, empty slot and cache maps, and both flags off |
| ScrollStack.StackEngine.Unmount | src/components/ScrollStack.jsx:421-436 | cleanup clears the cards, caches and flags |
| ScrollStack.StackEngine.MarkCompletion | src/components/ScrollStack.jsx:278-286 | fires on entering the pin window when not completed; re-arms on leaving it |
| ScrollStack.StackEngine.UpdateCardTransforms | src/components/ScrollStack.jsx:87-289 | without cards, or while a tick is running, nothing changes. Otherwise the slot table, cache, writes and completion flag follow the specification functions, and the engine invariant holds |
| ScrollStack.StackEngine.Mount | src/components/ScrollStack.jsx:369-419 | takes the measured cards, clears the slot tables and runs a first tick from an empty table; with no cards, or while an update is already running, the tables stay empty, nothing is written and the callback does not fire |
| Signature.StrokeWidth | src/pages/Home.jsx:119-126 | the stroke is "3.5" exactly for progress in (0.2, 0.6), "3.2" exactly in (0.6, 0.9), and "3" otherwise |
| Signature.WidthChoices | src/pages/Home.jsx:119-126 | only the three widths ever appear |
| Contact.EmailPatternMeaning | src/pages/Contact.jsx:202 | the email pattern accepts exactly the strings with no whitespace, one '@' (not first) and a later '.' with text on both sides |
| Contact.PatternHasShape | src/pages/Contact.jsx:202 | a match of the pattern has that shape |
| Contact.ShapeHasPattern | src/pages/Contact.jsx:202 | a string of that shape matches the pattern |
| Contact.ValidateField | src/pages/Contact.jsx:194-215 | company and budget never fail; a failure is always a non-empty message on a required field |
| Contact.ValidateFieldMessages | src/pages/Contact.jsx:196-211 | a non-blank name shorter than 2 after trimming gets the too-short message, a non-blank email that fails the pattern the invalid message, a non-blank message shorter than 10 the too-short message, and an empty project type the required message |
| Contact.ValidateFieldVerdicts | src/pages/Contact.jsx:196-211 | a name passes exactly when its trimmed length is at least 2; a project type passes exactly when one is chosen; a message passes exactly when its trimmed length is at least 10 |
| Contact.CollectErrors | src/pages/Contact.jsx:236-242 | every collected error is on a required field among those visited, and is that field's validator message |
| Contact.EmailValidIffPattern | src/pages/Contact.jsx:200-204 | an email passes exactly when it matches the pattern |
| Contact.BlankReportsRequired | src/pages/Contact.jsx:196-211 | a blank value reports "required", never a length or shape message |
| Contact.CollectErrorsExact | src/pages/Contact.jsx:237-242 | the submit loop records an error for a field exactly when the field is required and fails its validator, and the message recorded is the validator's |
| Contact.ValidateAll | src/pages/Contact.jsx:237-242 | the loop builds exactly that error map |
| Contact.RejectedErrorsExact | src/pages/Contact.jsx:237-247 | a rejected submit records a message exactly for the failing required fields |
| Contact.SentFormIsValid | src/pages/Contact.jsx:244-250 | a submit that goes on to send has every required field passing |
| Contact.PayloadOf | src/pages/Contact.jsx:252-264 | name, email, project type and message are the form's values (empty when unset); an empty company is sent as "Not provided" and an empty budget as "Not specified", a non-empty one as typed; the recipient is the contact address |
| Contact.ContactForm.constructor | src/pages/Contact.jsx:24-34 | every field is empty, with no errors and both flags off |
| Contact.ContactForm.HandleChange | src/pages/Contact.jsx:217-225 | stores the value, and clears that field's error only when one is shown |
| Contact.ContactForm.HandleBlur | src/pages/Contact.jsx:227-231 | records that field's validation result and nothing else |
| Contact.ContactForm.HandleSubmit | src/pages/Contact.jsx:233-285 | with any error, it records exactly the collected errors and sends nothing. Otherwise it sends the payload; on success it shows the banner and resets every field, and the submitting flag ends off |
| Contact.ContactForm.SuccessTimeout | src/pages/Contact.jsx:276-278 | the timer hides the success banner |
| Skills.CategoryNamed | src/pages/Skills.jsx:278 | a key names a group exactly when it is that group's key |
| Skills.AllSkillsInOrder | src/pages/Skills.jsx:273-276 | "all" concatenates the groups in declaration order |
| Skills.Chosen | src/pages/Skills.jsx:272-279 | "all" yields the four groups concatenated in order, a category's key yields exactly that category's group, and an unknown category yields no skills |
| Skills.Keep | src/pages/Skills.jsx:282-287 | the search filter never lengthens the list |
| Skills.KeepCounts | src/pages/Skills.jsx:282-287 | each skill keeps all its copies when its name or a tag contains the term (case-insensitively), and none otherwise |
| Skills.KeepMembership | src/pages/Skills.jsx:282-287 | a skill survives the search exactly when it was present and matches |
| Skills.KeepEmptyTerm | src/pages/Skills.jsx:282-287 | the empty term keeps everything |
| Skills.Searched | src/pages/Skills.jsx:282-287 | an empty term keeps the list; otherwise exactly the skills whose name or a tag contains the term remain |
| Skills.SearchGuardRedundant | src/pages/Skills.jsx:282-287 | the `if (searchTerm)` guard does not change the result |
| Skills.NameCompare | src/pages/Skills.jsx:293 | the name comparison is 0 exactly on equal names, and its sign follows lexicographic order |
| Skills.Compare | src/pages/Skills.jsx:290-303 | an unknown sort key compares everything as equal |
| Skills.CompareFlip | src/pages/Skills.jsx:290-303 | the comparator is antisymmetric in sign |
| Skills.CompareTransitive | src/pages/Skills.jsx:290-303 | the comparator is transitive |
| Skills.SortedPairs | src/pages/Skills.jsx:290-303 | in a sorted list every earlier element compares at most equal to every later one |
| Skills.SortedMeaning | src/pages/Skills.jsx:290-303 | sorted by name means names in order; by proficiency or experience, descending values |
| Skills.SortSkills | src/pages/Skills.jsx:290-303 | the in-place sort leaves the array sorted and a permutation of its input, and with an unknown key unchanged |
| Skills.FilteredSkills | src/pages/Skills.jsx:270-304 | the result is a permutation of the chosen category's search hits and is sorted; with an unknown key it is exactly those hits in catalogue order |
| Skills.ChooseSkills | src/pages/Skills.jsx:271-279 | the loop over the catalogue yields exactly the chosen skills: all four groups in order for "all", one group for its key, none otherwise |
| Skills.GridByNameOnly | src/pages/Skills.jsx:466-471 | a group's grid shows exactly its skills whose name contains the term; tags play no part |
| Skills.Grid | src/pages/Skills.jsx:466-471 | a group's grid lists only that group's skills, never more of them |
| Skills.SectionShown | src/pages/Skills.jsx:456 | a section is rendered exactly when "all" is chosen or the chosen name is that group's key |
| Skills.Offset | src/pages/Skills.jsx:488-531 | each group's first card index leaves room for the whole group |
| Skills.CardIndicesDistinct | src/pages/Skills.jsx:469-531 | two rendered cards never share an index, and every index is within the catalogue |
| Skills.YearsLabel | src/pages/Skills.jsx:343 | "year" exactly for one year, "years" otherwise |
| Skills.CategoryLabel | src/pages/Skills.jsx:431 | "All Skills" for all; otherwise the name with its first letter upper-cased |
| Skills.ButtonCaptions | src/pages/Skills.jsx:421-431 | the five buttons read All Skills, Frontend, Backend, Tools, Soft |
| GitHub.FirstPng | src/utils/github.js:31-34 | the first file entry whose lower-cased name ends in ".png", or none |
| GitHub.FindRepoCoverImage | src/utils/github.js:9-46 | a failed or throwing request yields no cover |
| GitHub.CoverIsFirstPng | src/utils/github.js:31-39 | the cover is the first PNG's download URL |
| GitHub.NoPngNoCover | src/utils/github.js:31-41 | no PNG file means no cover |
| GitHub.FallbackImage | src/utils/github.js:86 | the fallback is exactly the OpenGraph URL prefix, the configured user, a slash and the repository name |
| GitHub.ProjectImage | src/utils/github.js:86 | the cover when truthy, otherwise the fallback |
| GitHub.LanguageTag | src/utils/github.js:94 | at most one tag: the lower-cased language, present exactly when the language is truthy |
| GitHub.Take | src/utils/github.js:95 | a prefix of exactly min(n, length) elements |
| GitHub.ListTags | src/utils/github.js:93-96 | the language tag (when the language is truthy) followed by the first min(3, count) topics, in order, so at most four tags |
| GitHub.ListTagsArePrefix | src/utils/github.js:93-96 | the list view's tags are a prefix of the detail view's, and equal to them when there are at most three topics |
| GitHub.MapRepo | src/utils/github.js:79-107 | a project has at most four tags and is featured exactly when starred. Its description falls back to the default, its live URL is present exactly when the homepage is truthy, and its tags are the list-view tags. It uses the cover image when one is found and otherwise the fallback image |
| GitHub.MapAll | src/utils/github.js:79-108 | one project per repository, in order |
| GitHub.FetchRepos | src/utils/github.js:54-114 | a failed or throwing list request gives no projects; otherwise one project per repository, in order |
| GitHub.FetchRepo | src/utils/github.js:119-160 | a detail exists exactly when the request succeeds; its tags are the untruncated ones and its image falls back on the requested name |
| Header.PrefixesComparable | src/components/Header.jsx:60-64 | two prefixes of one path are prefixes of each other |
| Header.NavPathsIndependent | src/components/Header.jsx:86-120 | no navigation path starts with a different path other than "/" |
| Header.AtMostOneActive | src/components/Header.jsx:60-64 | at most one navigation link is active for any pathname |
| Header.IsActive | src/components/Header.jsx:60-64 | the root is active only on the root itself; any other link is active exactly when the current path starts with it |
| Header.NextTheme | src/components/Header.jsx:54 | the toggle yields "light" exactly from "dark", and otherwise "dark" |
| Header.ToggleTwice | src/components/Header.jsx:53-58 | toggling twice restores a dark or light theme |
| Header.InitialTheme | src/components/Header.jsx:13 | a non-empty saved theme is used; otherwise "dark" |
| Header.HeaderState.constructor | src/components/Header.jsx:12-15 | the theme starts from storage and the document attribute agrees with it |
| Header.HeaderState.ToggleTheme | src/components/Header.jsx:53-58 | the theme flips, is stored and is set on the document |
| Header.HeaderState.ToggleMenu | src/components/Header.jsx:145 | the menu button flips the menu |
| Header.HeaderState.CloseMenu | src/components/Header.jsx:49-51 | a route change or link click closes the menu |
| Home.GetTagColorAsWritten | src/pages/Home.jsx:74 | as written: the colour mapped to the lower-cased tag; an inherited name such as "constructor" gives a value outside the palette; anything else gives "accent" |
| Home.ConstructorTagMissesAccent | src/pages/Home.jsx:74 | as written, the tag "constructor" gets the grey fallback badge, where the intended lookup gives the accent badge |
| Home.AsWrittenAgreesOffInherited | src/pages/Home.jsx:74 | away from the inherited names the lookup as written and the intended one agree |
| Home.GetTagColor | src/pages/Home.jsx:45-75 | the colour the map itself defines for the lower-cased tag, or "accent" |
| Home.ColorMapInPalette | src/pages/Home.jsx:46-73 | every mapped colour is one the card styles know |
| Home.TagColorInPalette | src/pages/Home.jsx:45-75 | every tag colour is one the card styles know |
| Home.TagColorIgnoresCase | src/pages/Home.jsx:74 | tags differing only in case get the same colour |
| Home.TagClasses | src/pages/Home.jsx:709-715 | a colour has classes exactly when it is in the palette |
| Home.TagClass | src/pages/Home.jsx:709-717 | with the intended lookup every tag gets its palette colour's classes |
| Home.TagClassAsWritten | src/pages/Home.jsx:709-717 | as written, an inherited name gets the grey fallback class; every other tag gets the same class as with the intended lookup |
| Home.FallbackTagClassUnused | src/pages/Home.jsx:717 | with the intended lookup, the grey fallback class is never used |
| Home.SpanText | src/pages/Home.jsx:178 | a space becomes a non-breaking space; any other character stays |
| Home.HeroSpans | src/pages/Home.jsx:176-179 | one span per character, in order |
| Home.HeroSpansRoundTrip | src/pages/Home.jsx:176-179 | reading the spans back gives the original title |
| Home.Registered | src/pages/Home.jsx:537 | a present element not yet registered is appended; otherwise nothing changes |
| Home.RegisteredKeepsDistinct | src/pages/Home.jsx:537 | registration keeps the list free of duplicates, is idempotent, and records the element |
| Home.FadeInRefs.constructor | src/pages/Home.jsx:37 | the ref list starts empty |
| Home.FadeInRefs.Register | src/pages/Home.jsx:537 | the ref callback registers as specified and keeps the list duplicate-free |
| Home.Card | src/pages/Home.jsx:673-732 | the card shows the project's title, image and short description, and its featured badge exactly when featured. Its tags are the project's own when there are at most four and otherwise the first four. Each tag's class comes from the intended lookup, and agrees with the page as written on every tag that is not an inherited name. The star badge appears exactly when starred, with the star count. The live-demo link appears exactly when the URL is truthy, and links to it. The code link always goes to the code URL, and is full width exactly when there is no demo link |
| Home.ProjectsSection | src/pages/Home.jsx:653-664 | a spinner while loading, the notice exactly when loading ended with no projects, otherwise one card per project in order |
| Home.ProjectsState.constructor | src/pages/Home.jsx:42-43 | no projects, loading |
| Home.ProjectsState.LoadProjects | src/pages/Home.jsx:78-88 | the projects are those fetched and loading ends |
| Home.FailedLoadShowsNotice | src/pages/Home.jsx:653-660 | a failed fetch shows the "No projects found" notice |
| About.Toggled | src/pages/About.jsx:317-322 | the toggled item flips; every other item is unchanged |
| About.ToggleTwice | src/pages/About.jsx:317-322 | toggling twice restores every item's shown state |
| About.ExpandState.constructor | src/pages/About.jsx:31 | nothing is expanded at first |
| About.ExpandState.ToggleExpand | src/pages/About.jsx:317-322 | the item's content is shown exactly when it was hidden before |
| About.IsExpanded | src/pages/About.jsx:413-417 | an item counts as expanded exactly when its entry is present and true |
| About.StrokeUpdate | src/pages/About.jsx:61-70 | without the path nothing is written; with it, the banded stroke width |
| About.ResetBar | src/pages/About.jsx:154-156 | a present bar gets width 0% and keeps its data-width; a missing bar stays missing |
| About.RevealBar | src/pages/About.jsx:136-140 | a bar with a non-empty data-width gets that width in percent; others are unchanged |
| About.SkillBars.Reset | src/pages/About.jsx:154-156 | every bar is reset as above |
| About.SkillBars.Reveal | src/pages/About.jsx:135-141 | every bar is revealed as above |
| About.ResetThenReveal | src/pages/About.jsx:136-156 | a reset then a reveal leaves a bar at its data-width, or at 0% when it has none |
| About.FinalWidth | src/pages/About.jsx:136-156 | a row's bar ends at its data-width in percent, or at 0% when the data-width is empty |
| About.AsWrittenBarsDisagree | src/pages/About.jsx:742-778 | as written, the JavaScript, CSS/SCSS and Tailwind bars end at 85%, 88% and 75% beside printed 88%, 95% and 95%; React and TypeScript agree |
| About.Row | src/pages/About.jsx:732-778 | a row built from one percentage prints it and its bar ends at it |
| About.PageBarsMatchLabels | src/pages/About.jsx:732-778 | the intended rows keep the page's skills and printed percentages, and every bar ends at its printed percentage |
| Text.Trim | src/pages/Contact.jsx:197-198 | the result is a slice of the input with only whitespace cut from either end; it is empty exactly when the input is all whitespace, and otherwise starts and ends with non-space characters |
| Text.Lower | src/pages/Skills.jsx:284 | lower-casing keeps the length, maps each upper-case letter to its lower-case letter, keeps every other character, and leaves no upper-case letter |
| Text.OrElse | src/pages/Contact.jsx:258-260 | JavaScript's `s \|\| fallback` on a string, shared by the contact payload and the GitHub mapping: a non-empty value is kept, and the empty string becomes the fallback |
| Text.LexLeqTotal | src/pages/Skills.jsx:293 | the name order is total |
| Text.LexLeqTransitive | src/pages/Skills.jsx:293 | the name order is transitive |
| Text.LexLeqAntisymmetric | src/pages/Skills.jsx:293 | the name order is antisymmetric |
| Wrappers.Get | src/components/ScrollStack.jsx:260 | a map lookup finds a value exactly when the key is present |

## Findings

| source | as written | input that shows it | evidently intended | confidence | as-written member | corrected member |
|---|---|---|---|---|---|---|
| src/pages/Home.jsx:74 | `colorMap[tag.toLowerCase()] \|\| 'accent'` also finds names that every object inherits, whose values are truthy | a repository topic "constructor" (or "__proto__") | such a tag gets "accent" like any other unknown tag, and so the accent badge | not executed | Home.GetTagColorAsWritten, Home.ConstructorTagMissesAccent | Home.GetTagColor, Home.TagColorInPalette, Home.FallbackTagClassUnused, Home.Card |
| src/pages/About.jsx:742-778 | the JavaScript, CSS/SCSS and Tailwind rows print 88%, 95% and 95% beside bars whose data-width is 85, 88 and 75 | the page as rendered: the three bars end short of their printed percentages | each bar ends at the percentage printed beside it | not executed | About.AsWrittenBarsDisagree | About.Row, About.PageBarsMatchLabels |

## Left out

- **Rounding.** `Math.round` of the transform components to 2 or 3 decimals is not modelled: the model works on exact reals.
- **Scheduling and the DOM.** Not modelled:
  - The smooth-scroll library, `requestAnimationFrame` and the scroll listeners.
  - DOM style writes other than the written-card list.
  - Element measurement: card offsets, scroll offset, container height, end marker and section bottom are inputs.
  - The `useWindowScroll` switch: both modes only differ in how those inputs are measured.
- **ScrollStack.StackEngine.UpdateCardTransforms: degenerate scale window.** It requires that no card's scale window is a single point at the current scroll offset, where the source divides by zero and gets NaN.
- **ScrollStack.StackEngine.UpdateCardTransforms: null cards.** A `null` entry in the card list (skipped by the source) is not modelled: cards are a sequence of offsets.
- **ScrollStack.Tick: the per-card loop runs on values.** It then commits the new tables to the engine's fields.
- **ScrollStack.ParsePercentage: `parseFloat`.** It is abstracted as the number the string starts with, supplied alongside the string. Its contract states the 0% and 100% cases rather than the general product.
- **The slot table under any layout.** The claim that slots are contiguous and ordered holds only when pin starts grow with the card index. It is proved under that hypothesis (`OrderedCardsTakeOwnSlot`).
- **A single card pins.** A stack of one card does pin and fires the completion callback; the model follows the code here.
- **Skills.FilteredSkills, Skills.SortSkills: stability.** The sort is an insertion sort that swaps only strict inversions, but stability for known keys is not stated. `Array.prototype.sort` is stable, so the relative order of equal skills is not modelled.
- **Skills.Chosen, Skills.ChooseSkills, Skills.CategoryNamed, Skills.FilteredSkills: inherited names.** `skills[activeCategory] || []` also finds the names every object inherits ("constructor", "toString", "__proto__" and the like), which yield a function or an object. The later `filter` or `sort` then throws. The model gives such a name no skills instead. The category only ever takes the five button keys (src/pages/Skills.jsx:421-431), so the page never reaches this.
- **Skills.FilteredSkills: unused by the page.** The page never calls `filteredSkills` (the grids filter each group by name only). It is modelled all the same.
- **Skills.FilteredSkills: aliasing.** When a single category is chosen and no search term is given, the source sorts the catalogue's own array in place. The model sorts a copy.
- **Skills: icons, colours and animation.** Skill icons, colours and animation delays are not modelled.
- **Text: ASCII only.** `trim`, `toLowerCase` and the `\s` class are ASCII only, and `localeCompare` is modelled as code-point lexicographic order. JavaScript's `.length` and `split('')` count UTF-16 code units, while the model counts characters: a name such as "😀" has length 2 in the source and passes the name check, but the model reports it too short. Likewise the hero title's letter spans split a surrogate pair in two.
- **Contact: field names.** They are a datatype of the six inputs, so `handleChange` and `handleBlur` on other names are not modelled.
- **Contact: mail service and timers.** The mail service is a success/failure input, the browser `alert` is not modelled, and the 5-second timer is the separate `SuccessTimeout` method.
- **GitHub: HTTP and headers.** Requests, headers and the `limit`/`sort` query parameters are not modelled: responses are inputs.
- **GitHub: `default_branch`.** It is read but unused by the source, and is not modelled.
- **Home: ref slots and animations.** The fade-in refs assigned by fixed index (`fadeInRefs.current[0] = el`) are not modelled, only the `push`-if-absent callback. The GSAP timelines and observers are not modelled beyond the stroke-width update.
- **Home: stroke update null guard.** Home's signature `onUpdate` has no null guard on the path, unlike About's. Writing to a missing path would throw; the model only gives the width.
- **Header: nav link animations.** GSAP animations of the navigation links are not modelled.
- **Not part of this model.** `src/pages/Services.jsx`, `src/App.jsx`, `src/components/Footer.jsx`, the Vite/Tailwind configuration and `server-with-env.js`.
