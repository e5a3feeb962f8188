# Rajasthan crafts map: a verified model of the site's interaction logic

The site is an interactive map of Rajasthan's traditional crafts. A visitor
clicks a marker and a three-page panel opens (photos, details, more). The
panel holds a quiz, a drawing pad and a story spinner. This project models
the logic in `script.js` behind that page: the state it keeps and the
decisions it makes. Painting, animation and HTML are not modelled.

The modules follow the site's own structure.

- `Basics`: the JavaScript built-ins the site relies on, written out.
  These are `trim`, `toLowerCase` (ASCII letters only), `indexOf`/`includes`,
  the `\d` and `\w` character classes, and a `Set` kept in insertion order.
- `Locations`: the parsed location records.
  - The lookup table, `allCrafts` and `locationNames`.
  - The display name: the part of the title before the first `" - "`, trimmed.
  - Stats lookups and the theme colour.
- `Random`: `shuffleArray`, `pickRandomItems` and `randomElement`.
  Every random outcome is an explicit argument, so what is proved holds for
  every outcome of `Math.random`. A lemma shows that every permutation is
  reachable by the shuffle.
- `StatText`: the statistics question's text handling.
  - `formatStatLabel`.
  - The first digit run and the trailing suffix of a value such as `"50+"`.
  - Half-up integer rounding of the scaled numbers.
  - Decimal rendering.
- `Quiz`: `generateQuizQuestions`, `createStatQuestion` and
  `generateStatAlternatives`. The last one is a method with the `forEach` and
  `while` loops of the source.
- `QuizPlay`: one quiz run, the class `QuizSession`. It holds the current
  question, the score, one answer per question and the closing message.
- `Story`: the keyword dispatch of `generateCraftStory` and the values
  substituted into the story. The if-chain is proved equal to an ordered
  table of keyword rows.
- `Swipe`: the page-swipe gesture (`setupSwipe`) as a state machine over the
  integer horizontal distance dragged.
- `Panel`: every handler of the map, the panel and the buttons, as a function
  on the page state. Lemmas state what each handler does, and that the page
  invariants hold under any sequence of handlers.
- `MapView`: the class `MapInteraction`. The marker elements are an array,
  updated by the clearing loop. Each handler method is proved to leave
  exactly the state the matching function of `Panel` or `Swipe` gives.
- `Drawing`: the drawing pad of `setupPattern` as a class. Its state is the
  pen, the tool, the colour, the brush size, the context settings and the
  segments stroked since the last clear.
- `Trail`: `CursorTrail`, which keeps at most the six latest dots.

Some behaviour of `script.js` may look unintended. The model keeps it as
written:

- `goToPage` stores the page index as given and does not clamp it.
- A release turns the page only when the drag ended more than 100 px to one
  side. A release between 80 and 100 px snaps back.
- `handleStart` always starts a fresh drag, even while a drag is in progress.
- Escape, the home button and the info button close panels. They do not
  clear the active marker or reset the page.
- `closePanel` does not forget the location last shown.

## Model

| member | source | states |
|---|---|---|
| Basics.Trim | script.js:179 | the result is an infix of the text with no leading or trailing whitespace, and only whitespace was removed |
| Basics.Lowercase | script.js:1357 | same length; each character is lower-cased (ASCII letters) |
| Basics.IndexOf | script.js:179 | a found position is an occurrence with none before it; no result means no occurrence anywhere |
| Locations.LocationMap | script.js:78 | the lookup table's keys are exactly the records' keys, and each key finds its record |
| Locations.Values | script.js:80 | the records' locations, in document order |
| Locations.DisplayName | script.js:179 | no title gives the fallback; a title without " - " is kept whole; otherwise the name is the trimmed text before the first " - ", it occurs in the title and holds no " - " |
| Locations.NonEmpty | script.js:80 | `filter(Boolean)`: the result holds exactly the non-empty strings of the input, each as often as in the input |
| Locations.NonEmptyAppend | script.js:80 | filtering works piece by piece, so the kept strings stay in input order |
| Locations.AllCrafts | script.js:80 | a craft is listed exactly when it is non-empty and some record has it, as many times as records have it |
| Locations.AllCraftsAppend | script.js:80 | a record added at the end adds its non-empty craft at the end: the list is in record order |
| Locations.LocationNames | script.js:81-84 | a name is listed exactly when it is non-empty and is some record's display name, as many times as records have it |
| Locations.LocationNamesAppend | script.js:81-84 | a record added at the end adds its non-empty name at the end: the list is in record order |
| Locations.LocationNamesWithoutSeparator | script.js:81-84 | no listed name contains " - " |
| Locations.Lookup | script.js:985-987 | a found value belongs to the first stats entry with that key; no result means no entry has the key |
| Locations.PrimaryColor | script.js:797 | the theme's primary colour, or "#d4a574" when it is missing |
| Random.Shuffle | script.js:771-776 | the result is a permutation of the input: same length and same multiset |
| Random.ShuffleReachesEveryPermutation | script.js:771-776 | every permutation of the input is the result for some random outcomes |
| Random.Without | script.js:767 | an item is kept exactly when it is in the source and not excluded; every copy of a kept item survives and no copy of an excluded one |
| Random.WithoutAppend | script.js:767 | filtering works piece by piece, so the kept items stay in source order |
| Random.PickRandomItems | script.js:766-769 | min(count, size of the filtered pool) items, drawn from the filtered pool without repeating any copy, none excluded |
| Random.RandomElement | script.js:778-780 | the result is an element of the array |
| Random.RandomElementReachesAll | script.js:778-780 | every element is drawn by some random outcome |
| StatText.Spaced | script.js:727 | same length; every underscore becomes a space and nothing else changes |
| StatText.CapitalizeAt | script.js:728 | a character is upper-cased exactly at a word start |
| StatText.FormatStatLabel | script.js:725-729 | same length and no underscore; each character is unchanged, an underscore turned into a space, or a word-initial letter upper-cased; nothing else changes |
| StatText.FormatStatLabelIdempotent | script.js:725-729 | formatting an already formatted label changes nothing |
| StatText.DigitRun | script.js:733 | the first digit run of the value: no digit before it, not followed by a digit; empty exactly when the value has no digit |
| StatText.TrailingSuffix | script.js:734-735 | the longest non-digit tail of the value, empty when it ends in a digit |
| StatText.NatToString | script.js:748 | non-empty digits without a leading zero |
| StatText.NatToStringRoundTrip | script.js:738 | parsing the rendering of a number gives back that number |
| StatText.StatNumber | script.js:733-739 | a number is read exactly when the value holds a digit, and it is the decimal value of the first digit run |
| StatText.Round60 | script.js:741 | the whole number nearest to 60% of the input, halves rounded up |
| StatText.Round85 | script.js:742 | the whole number nearest to 85% of the input, halves rounded up |
| StatText.Round120 | script.js:743 | the whole number nearest to 120% of the input, halves rounded up |
| StatText.Round140 | script.js:744 | the whole number nearest to 140% of the input, halves rounded up |
| StatText.Variations | script.js:740-745 | four variations: 60% and 85% of the number rounded half up and raised to at least 1, then 120% and 140% rounded half up |
| StatText.Candidates | script.js:737-751 | four candidates exactly when the value has a digit; each is a rendered variation followed by the value's suffix |
| Quiz.CorrectCountPermutation | script.js:771-776 | reordering options keeps the number flagged correct |
| Quiz.Distractors | script.js:660-663 | each label becomes a wrong option, in order |
| Quiz.ShuffledOptions | script.js:658-664 | the options are the answer flagged correct and each wrong label flagged wrong, each once, in some order; so exactly one option is correct, the one labelled with the answer |
| Quiz.NumericPicks | script.js:747-751 | the first three distinct candidates other than the stats value: in the order the candidates first offer them, and a candidate is passed over only when three earlier ones are taken |
| Quiz.FallbackHasRoom | script.js:755-761 | while fewer than three are picked, some fallback value can still be added, so the loop ends |
| Quiz.NumericAlternatives | script.js:747-751 | the `forEach` loop picks exactly NumericPicks |
| Quiz.FillFromFallback | script.js:755-763 | the `while` loop tops the set up to three distinct values, none the stats value, keeping the numeric picks first |
| Quiz.GenerateStatAlternatives | script.js:731-764 | three distinct alternatives, none the stats value: the numeric picks in order, then fallback values |
| Quiz.CreateStatQuestion | script.js:704-723 | no question exactly when there are no stats; otherwise four options labelled with the formatted key: the drawn entry's value and three stat alternatives, each once |
| Quiz.CraftQuestionFor | script.js:656-667 | keyed to the location's craft; the options are the craft and the randomly picked other crafts, each once; 1 + min(3, other crafts) options |
| Quiz.DestinationQuestionFor | script.js:675-686 | keyed to the location name; the options are the name and the randomly picked other names, each once; 1 + min(3, other names) options |
| Quiz.SupportQuestionFor | script.js:689-699 | four options keyed to buying directly from the workshops: that answer and the three fixed wrong ones, each once |
| Quiz.SecondQuestion | script.js:669-687 | with stats, the statistic question on the drawn entry, its options the value and three stat alternatives; the destination question otherwise |
| Quiz.GenerateQuizQuestions | script.js:652-702 | exactly three questions: craft, then statistic (value and three stat alternatives) or destination, then support, each with exactly one correct option |
| QuizPlay.SeventyPercent | script.js:624 | the least whole number at or above 70% of the total |
| QuizPlay.ResultTier | script.js:620-626 | perfect exactly when every question was right; great exactly when short of that but at least 70%; keep exploring otherwise |
| QuizPlay.ThreeQuestionsSkipGreat | script.js:620-626 | with three questions the middle message is never shown |
| QuizPlay.QuizSession.constructor | script.js:540-551 | a quiz starts on question 0 with score 0, or shows the "coming soon" message when there are no questions |
| QuizPlay.QuizSession.Answer | script.js:572-592 | only an unanswered question takes a click; the score rises by one exactly when the option is correct; the score never exceeds the questions answered |
| QuizPlay.QuizSession.Next | script.js:604-611 | after an answer, moves to the next question or to the results; the score is kept |
| QuizPlay.QuizSession.Result | script.js:620-626 | the closing message is ResultTier of the score and the number of questions, "perfect" exactly when every answer was right |
| Story.FirstMatch | script.js:1360-1394 | the kind of the first matching row of the keyword table; generic when no row matches |
| Story.KindForIsFirstMatch | script.js:1357-1397 | the if-chain picks the same template as the first matching row of the ordered keyword table |
| Story.GenericIffNoKeyword | script.js:1397-1420 | the generic story is told exactly when the craft name holds none of the keywords |
| Story.CamelLeatherExactly | script.js:1364-1369 | the camel-leather story is told exactly for a name with "leather" and "camel" and no earlier keyword |
| Story.CarvingBeatsMarbleAndStone | script.js:1380-1387 | "carving" comes before "marble" and "stone" in the chain, so it wins |
| Story.SelectTemplateIgnoresCase | script.js:1357 | lower-casing the craft name first does not change the template |
| Story.Generations | script.js:987 | the `generations` stat when it is non-empty, else "several" |
| Story.ArtisanCount | script.js:986 | the `artisans` stat, else the `workshops` stat, else "many" |
| Story.CraftName | script.js:974 | the location's craft, else "this craft" |
| Story.GenerateCraftStory | script.js:983-1422 | the template picked by the craft name; the Bagru dyes and Jaisalmer's golden stone appear exactly for the block-printing or stone template and a location id containing "bagru" or "jaisalmer"; the generations and artisan values are those of the stats |
| Story.SpinStory | script.js:973-980 | the story card's story: the template of the craft name ("this craft" when missing), the display name with an empty fallback, the stats values, and the place variants of the location id |
| Swipe.OnPress | script.js:419-428 | a press always starts a fresh, unmoved drag at the pointer |
| Swipe.OnDrag | script.js:430-443 | outside a drag nothing changes; during a drag the position is recorded, and the drag counts as moved once the pointer is at least 15 px from its start |
| Swipe.ReleaseTurnsPage | script.js:474-505 | a release changes the page exactly when a moved drag ended more than 100 px to one side with a page on that side, by exactly one page |
| Swipe.ShortReleaseSnapsBack | script.js:486-504 | a release between 80 and 100 px keeps the page |
| Swipe.PressAndDragKeepPage | script.js:419-443 | presses and moves never change the page |
| Swipe.RunKeepsPageInRange | script.js:493-498 | swiping alone keeps the page among the three |
| Swipe.DragsDuringGesture | script.js:430-443 | during a drag, moves keep the start and the page; the drag has moved exactly when some position reached the 15 px dead zone |
| Swipe.GestureTurnsAtMostOnePage | script.js:419-505 | one press, moves and release turn the page by at most one, and only if some move reached the dead zone |
| Panel.Activated | script.js:159-172 | the marker count is kept; marker i alone is active and has the active glow, and every other marker is cleared |
| Panel.ShowLocationUnknown | script.js:144-146 | a click on a marker without a record changes nothing |
| Panel.ShowLocationOpensPanel | script.js:144-172 | exactly the clicked marker is active and glowing; the panel is open on page 0; the about panel is closed (script.js:329-341); the location is remembered |
| Panel.ClosePanelClears | script.js:1466-1486 | no marker stays active or glowing; the panel is closed on page 0 |
| Panel.HoverThenLeave | script.js:105-114 | hovering an inactive marker and leaving it restores the page |
| Panel.InitialConsistent | script.js:88-116 | the page as loaded satisfies the page invariants |
| Panel.ApplyKeepsConsistent | script.js:1679-1753 | every handler keeps both panels from being open together, keeps at most one marker active, and keeps "active" equal to "shows the active glow" |
| Panel.ApplyAllKeepsConsistent | script.js:1776-1786 | any sequence of handlers, Escape included, keeps those invariants and the number of markers |
| MapView.MapInteraction.constructor | script.js:77-86 | the lookup table, `allCrafts` and `locationNames` from the records; every marker unlit; both panels closed |
| MapView.MapInteraction.ClearMarkers | script.js:159-165 | after the loop every marker is inactive and unlit |
| MapView.MapInteraction.MarkOnlyActive | script.js:159-172 | the markers become Panel.Activated of the old markers |
| MapView.MapInteraction.ShowLocation | script.js:144-172 | the page state becomes Panel.ShowLocation of the old one and stays consistent; a shown location starts with no drag in progress |
| MapView.MapInteraction.ClosePanel | script.js:1466-1486 | the page state becomes Panel.ClosePanel of the old one and stays consistent |
| MapView.MapInteraction.HighlightMarker | script.js:134-142 | the page state becomes Panel.Hover of the old one |
| MapView.MapInteraction.LeaveMarker | script.js:109-114 | the page state becomes Panel.Leave of the old one |
| MapView.MapInteraction.GoToPage | script.js:398-409 | the page index is stored as given; nothing else changes |
| MapView.MapInteraction.ShowMap | script.js:1690-1696 | the map is shown; nothing else changes |
| MapView.MapInteraction.GoHome | script.js:1719-1726 | the home page is shown and both panels close |
| MapView.MapInteraction.ToggleInfo | script.js:1729-1736 | the content panel closes and the about panel toggles |
| MapView.MapInteraction.CloseAbout | script.js:1739-1751 | the about panel closes |
| MapView.MapInteraction.Escape | script.js:1776-1786 | both panels close; markers and page stay |
| MapView.MapInteraction.HandleStart | script.js:419-428 | the swipe state becomes Swipe.Step for a press |
| MapView.MapInteraction.HandleMove | script.js:430-472 | the swipe state becomes Swipe.Step for a move; the page is untouched |
| MapView.MapInteraction.HandleEnd | script.js:474-505 | the swipe state becomes Swipe.Step for a release, and the panel's page is the page it leaves |
| Drawing.DrawingPad.constructor | script.js:796-811 | pen up, brush at size 10 in the location's primary colour, painting over in black, blank canvas |
| Drawing.DrawingPad.UpdateBrushSize | script.js:819-829 | the size is stored as given, without clamping; every other setting, the pen and the drawing are kept |
| Drawing.DrawingPad.PickColor | script.js:833-848 | a non-empty colour becomes the current colour; every other setting, the pen and the drawing are kept |
| Drawing.DrawingPad.SelectTool | script.js:851-859 | a non-empty tool becomes the current tool; every other setting, the pen and the drawing are kept |
| Drawing.DrawingPad.StartDrawing | script.js:899-904 | pen down at the point; nothing painted; every setting kept |
| Drawing.DrawingPad.Draw | script.js:877-896 | one segment from the last point, at the brush width; brush paints in the current colour, eraser erases, other tools keep the settings; colour, size and tool kept; the segments of a stroke stay joined end to start |
| Drawing.DrawingPad.ContinueDrawing | script.js:907-912 | while the pen is down, exactly what Draw does; otherwise nothing changes |
| Drawing.DrawingPad.StopDrawing | script.js:915-917 | pen up; the drawing, the position and every setting are kept |
| Drawing.DrawingPad.Clear | script.js:940-945 | nothing drawn remains; the pen state and every setting are kept |
| Trail.Push | script.js:1611-1635 | at most six dots are kept, and the newest is last |
| Trail.PushKeepsLatest | script.js:1611-1635 | pushing onto the latest six positions gives the latest six positions of the longer history |
| Trail.CursorTrail.CreateTrail | script.js:1611-1635 | the dots are always the six latest mouse positions, oldest first |

## Left out

- Animation is not modelled, being floating-point timing driven by `requestAnimationFrame` and `setTimeout`. This covers the particle system, the ripple, the floating elements, the `DrawingController` demo, the entrance animations and the dot fading.
- The swipe's visual transforms and transitions are left out. So are `getCanvasCoordinates` scaling and `resizeCanvas`, which are floating-point geometry. Pointer positions arrive as integers already in page or canvas coordinates.
- Canvas pixels and compositing are left out: they go through the Canvas 2D API. The drawing is kept as the list of stroked segments with their settings. `lineCap` and `lineJoin` are fixed and left out. Clearing fills the canvas under the current composite operation, so after an eraser stroke it leaves the canvas transparent rather than painted in the background colour; the model records only that nothing drawn remains.
- HTML template strings, the story prose, the quiz question and explanation texts, and image loading are output text. A question keeps only its kind, its topic and its options. A story keeps its template, its two place-dependent variants and its four substituted values.
- `JSON.parse` and DOM queries are not modelled: the records and the marker elements are given. The order of `Object.values`/`Object.entries` is taken to be document order, which is not true for integer-like keys. A field the record lacks is the empty string. Stats keys are looked up first-entry-first, while `JSON.parse` keeps the last duplicate.
- Random choices are explicit arguments, not a distribution. In the fallback `while` loop, draws that add nothing to the set are not modelled; every draw that adds a value is.
- Quiz.GenerateStatAlternatives: uses integer half-up rounding instead of `Math.round` on IEEE doubles. The results agree for realistic magnitudes.
- StatText.NatToString: does not render numbers large enough for JavaScript's exponent notation.
- Basics.Lowercase: case mapping covers ASCII letters only, so non-ASCII craft names are compared as written.
- Listener accumulation is not modelled: `showLocation` adds a fresh set of swipe handlers each time. The model keeps a single set of handlers, and showing a location resets its drag.
- A `data-next`/`data-prev` that `parseInt` turns into NaN is not modelled: the page index is an integer.
- "Play Again" is not a separate operation: it starts a new session, modelled as the QuizSession constructor.
- The theme's secondary and accent colours are left out: they only feed styling. The colour picker's own displayed value and the tools' active class are left out for the same reason.
- The scrolling to the top of pages is left out, as is the map container's `display` style: they are layout only.
- Drawing.DrawingPad.PickColor: models the colour picker and the preset buttons as one operation. It ignores the preset buttons' requirement that a colour picker element exists.
