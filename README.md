# Web 2.0 marketing site: quote engine, domain suggestions, project editor, carousel

A Dafny model of the four pieces of logic in the site's React pages:

- **Quote calculator** (`pages/BaoGia.tsx`, module `Quote`):
  - the base price table;
  - the cost breakdown the page recomputes after every change: design lines, a discount clamped to the design subtotal, and 8 % VAT on hosting and domain only;
  - the discount-code parser (`FI<n>PT` for a percentage, `FI<n>TR` for millions of VND);
  - add-on toggling;
  - the three-instalment payment split.

  The component state is the class `Quote.QuoteForm`. Its invariant `Valid()` says that `costs` is the breakdown of the current selection, and every handler keeps it.
- **Domain-name suggestions** (`pages/Domain.tsx`, module `DomainSuggest`):
  - the two keyword normalisations;
  - the direct and suggested candidates over the fixed TLD list;
  - the search guard and the choice of the first tab.

  The page state is the class `DomainSuggest.DomainSearch`.
- **Project-list editor** (`pages/Admin.tsx`, module `AdminPanel`):
  - the password gate;
  - appending a project with a default link;
  - deleting by id behind a confirmation;
  - exporting the list as the text of the project data file.

  The page state is the class `AdminPanel.AdminPanel`.
- **Home page** (`pages/Home.tsx`, module `HomePage`):
  - the carousel's slide count, auto-advance and per-slide windows (class `HomePage.Carousel`);
  - the validation and loading transitions of the AI slogan form around its service call (class `HomePage.AiGenerator`).

Supporting modules model the JavaScript built-ins the pages call:

- `Wrappers`: `Option`.
- `JsText`: `trim`, ASCII case mapping, `startsWith`/`endsWith`, `substring`, `indexOf`, `replace` with a string pattern, `join` and `slice`.
- `JsNumber`: `parseFloat`, read as the longest decimal literal after white space and an optional sign. `NaN` is `None`.
- `ProjectData`: the `Project` record.

Modelling choices:

- Money is an exact `real`.
- Status messages are tags that carry the figure they display.
- Foreign behaviour becomes parameters:
  - Unicode `toLowerCase` and `normalize("NFD")` are the datatype `UnicodeOps`. Where a lemma needs them, the predicate `AgreesOnAscii` requires them to behave as the ECMAScript standard does on ASCII text.
  - `JSON.stringify` is a function parameter.
  - `Date.now()` is an id argument.
  - The answers to `prompt` and `confirm` are arguments.
  - The outcome of the slogan service call is an argument.
- Timer callbacks are separate methods: `Search`, then `Complete`, then `Reveal` on the domain page; `Generate`, then `Settle` on the AI form; `Tick` for the carousel.

## Model

| member | source | states |
|---|---|---|
| Quote.Price | pages/BaoGia.tsx:28-37 | a listed id costs exactly its table price; the price is 0 exactly when the id is not in the table |
| Quote.SelectedPrice | pages/BaoGia.tsx:43-46 | a selection costs something only when it is a non-empty id in the table, and then it costs that id's table price |
| Quote.SelectedPriceZero | pages/BaoGia.tsx:43-46 | a null, empty or unknown selection contributes 0, and only those do |
| Quote.SumOf | pages/BaoGia.tsx:44 | the fold is at least the price of each element, and it is 0 exactly when every element is priced 0 |
| Quote.AddonsBase | pages/BaoGia.tsx:44 | the add-on cost is 0 exactly when no selected add-on is in the price table |
| Quote.SumOfAppend | pages/BaoGia.tsx:44 | the add-on fold over a concatenation is the sum of the two folds |
| Quote.Without | pages/BaoGia.tsx:82 | unchecking leaves no occurrence of the id, keeps every other id, and shortens the list by the number of occurrences |
| Quote.WithoutAppend | pages/BaoGia.tsx:82 | the filter distributes over concatenation, so the other ids keep their order |
| Quote.WithoutAbsent | pages/BaoGia.tsx:82 | filtering an id that is not in the list changes nothing |
| Quote.Toggled | pages/BaoGia.tsx:80-83 | the id is in the new list exactly when it was checked; no other id is added or dropped; checking appends the id itself after the old list; unchecking removes every occurrence |
| Quote.ToggleRoundTrip | pages/BaoGia.tsx:80-83 | checking and then unchecking an unselected add-on gives back the original list |
| Quote.ToggledCost | pages/BaoGia.tsx:80-83 | checking adds the id's price to the add-on cost; unchecking removes it once per occurrence |
| Quote.WithoutSum | pages/BaoGia.tsx:44 | the fold over the filtered list plus count times price equals the fold over the whole list |
| Quote.NormalizeCode | pages/BaoGia.tsx:87 | the normalised code holds no lower-case ASCII letter and no white space at either end, and is empty exactly when the raw code is all white space |
| Quote.ParseDiscount | pages/BaoGia.tsx:85-106 | the amount is never negative; no discount exactly when the amount is 0; a percent or fixed result carries its own amount in its message |
| Quote.ParseDiscountCases | pages/BaoGia.tsx:87-105 | an empty code asks for a code; `FI…PT` is a percent exactly when the body parses to a positive number, otherwise an invalid-percent message; `FI…TR` is fixed exactly when the amount is positive, otherwise an invalid-cash message; any other code is invalid |
| Quote.DiscountNeedsShape | pages/BaoGia.tsx:92-102 | any granted discount comes from a normalised code of at least four characters that starts with `FI` |
| Quote.CodeShapeLength | pages/BaoGia.tsx:92-98 | both code shapes have at least four characters, so the body is the text strictly between `FI` and the suffix |
| Quote.ShortCodeHasNoShape | pages/BaoGia.tsx:92-97 | no code shorter than four characters both starts with `FI` and ends with `PT` or `TR` |
| Quote.CashValuePositive | pages/BaoGia.tsx:98-100 | the contract of `CashValue`: a cash code is worth a positive amount exactly when its body, with `TR` replaced by `.`, parses to a positive number |
| Quote.DiscountAmount | pages/BaoGia.tsx:48-55 | the discount never exceeds the design subtotal, and it is not negative for a non-negative amount and subtotal |
| Quote.DiscountByKind | pages/BaoGia.tsx:50-55 | no discount gives 0; a percentage up to 100 gives design·p/100; a percentage from 100 up gives the full design cost; a fixed amount gives the amount capped at the design cost |
| Quote.Aggregate | pages/BaoGia.tsx:42-73 | the discount stays within the design subtotal; hosting plus domain is their base plus the VAT line; the total is design minus discount plus infrastructure; the total covers at least the infrastructure |
| Quote.AggregateLines | pages/BaoGia.tsx:43-69 | each line comes from the table: the package and add-on lines without VAT, hosting and domain times 1.08, VAT = (h+d)·0.08, and the discount is computed on package plus add-ons |
| Quote.VatIndependentOfDesign | pages/BaoGia.tsx:59-61 | package, add-ons and discount never change the hosting, domain or VAT lines |
| Quote.QuoteOutcome | pages/BaoGia.tsx:108-114 | finalising is refused exactly when no package is selected; otherwise the signing and handover payments are equal and the total is the breakdown's total |
| Quote.InstalmentsSumToTotal | pages/BaoGia.tsx:113-132 | with a package selected, signing = handover = (design − discount)/2 ≥ 0 and the infrastructure payment is hosting + domain; the three payments add up to the total |
| Quote.NoPackageRefused | pages/BaoGia.tsx:109-112 | with no package the package line is 0 and the outcome is the error |
| Quote.QuoteForm.constructor | pages/BaoGia.tsx:7-22 | the initial state is nothing selected, industry `yte`, an empty code, the blank discount and zero costs; the invariant holds |
| Quote.QuoteForm.Recompute | pages/BaoGia.tsx:42-73 | the cost effect: afterwards `costs` is the breakdown of the current selection |
| Quote.QuoteForm.SelectPackage | pages/BaoGia.tsx:155 | sets the package, keeps every other field, and restores the invariant |
| Quote.QuoteForm.SelectHosting | pages/BaoGia.tsx:10 | sets the hosting choice, keeps every other field, and restores the invariant |
| Quote.QuoteForm.SelectDomain | pages/BaoGia.tsx:11 | sets the domain choice, keeps every other field, and restores the invariant |
| Quote.QuoteForm.SetDiscountCode | pages/BaoGia.tsx:188 | typing a code only changes the code; nothing is applied |
| Quote.QuoteForm.ChangeIndustry | pages/BaoGia.tsx:75-78 | a new industry empties the add-on list, so the add-on cost is 0; the other choices are kept |
| Quote.QuoteForm.ToggleAddon | pages/BaoGia.tsx:80-83 | the add-on list becomes the toggled list; checking raises the add-on cost by the id's price; the other fields are kept |
| Quote.QuoteForm.ApplyDiscount | pages/BaoGia.tsx:85-106 | the discount becomes the parse of the code in the box, and the breakdown is recomputed with it; no other field changes |
| Quote.QuoteForm.SetDiscount | pages/BaoGia.tsx:42-73 | the stored discount is the given one and the breakdown is recomputed with it |
| Quote.QuoteForm.SetAddons | pages/BaoGia.tsx:42-73 | the stored add-on list is the given one and the breakdown is recomputed with it |
| Quote.QuoteForm.FinalizeQuote | pages/BaoGia.tsx:108-137 | returns the outcome of the current breakdown; any payment schedule adds up to the total |
| QuoteExamples.PercentCodeExample | pages/BaoGia.tsx:92-96 | `FI20PT` is a 20 % discount |
| QuoteExamples.CashCodeExample | pages/BaoGia.tsx:97-101 | `FI1TR5TR` is a fixed discount of 1,500,000 |
| QuoteExamples.EmptyCodeExample | pages/BaoGia.tsx:88-91 | an empty code gives the enter-a-code message and no discount |
| QuoteExamples.RandomCodeExample | pages/BaoGia.tsx:103-105 | `RANDOM` is an invalid code |
| QuoteExamples.EmptyBodyExample | pages/BaoGia.tsx:92-96 | `FIPT` has an empty body and gives the invalid-percent message |
| QuoteExamples.WholePercentCode | pages/BaoGia.tsx:92-96 | `FI<n>PT` with n a positive whole number in decimal is an n % discount |
| QuoteExamples.TenPercentCode | pages/BaoGia.tsx:92-96 | `FI10PT` is a 10 % discount |
| QuoteExamples.HugePercentCode | pages/BaoGia.tsx:92-96 | `FI9999999PT` is a 9999999 % discount |
| QuoteExamples.ReferenceQuote | pages/BaoGia.tsx:42-114 | the basic package with the doctor-lookup add-on, 5 GB hosting, a .com domain and the code `FI10PT` comes to 14,177,880, paid as 4,275,000 + 5,627,880 + 4,275,000 |
| QuoteExamples.OversizedPercentClamps | pages/BaoGia.tsx:50-55 | the code `FI9999999PT`, a percentage far above 100, takes off exactly the design cost, leaving only infrastructure in the total |
| JsNumber.ParseFloat | pages/BaoGia.tsx:93 | a number is read exactly when a decimal literal follows the white space and sign; an unsigned result is not negative and a negated one is not positive |
| JsNumber.ParseDecimal | pages/BaoGia.tsx:99 | `whole.fraction` with nothing after it parses to its exact decimal value |
| JsNumber.ParseDigits | pages/BaoGia.tsx:93 | a run of digits followed by text that cannot continue a literal parses to the digits' value |
| JsNumber.ParseDecimalString | pages/BaoGia.tsx:93 | the decimal digits of a natural number parse back to that number |
| JsText.TrimStart | pages/BaoGia.tsx:87 | the result is the longest suffix without leading white space, and only white space was dropped |
| JsText.TrimEnd | pages/BaoGia.tsx:87 | the result is the longest prefix without trailing white space, and only white space was dropped |
| JsText.Trim | pages/BaoGia.tsx:87 | the trimmed text has no white space at either end and is empty exactly when the input is all white space |
| JsText.AsciiUpperChars | pages/BaoGia.tsx:87 | upper-casing keeps the length, leaves no lower-case ASCII letter and keeps white space where it was |
| JsText.Substring | pages/BaoGia.tsx:93 | for ordered indices, the slice between them clamped to the string |
| JsText.IndexOf | pages/BaoGia.tsx:99 | the result is −1 or a position where the pattern occurs, and the pattern occurs at no earlier position |
| JsText.ReplaceFirstFacts | pages/BaoGia.tsx:99 | `replace` with a string pattern leaves text without an occurrence unchanged; otherwise only the first occurrence is replaced, with the text before and after it kept |
| JsText.Join | pages/Admin.tsx:43 | joining no parts gives the empty string; otherwise the result starts with the first part and ends with the last |
| JsText.JoinSnoc | pages/Admin.tsx:43 | joining one more part appends the separator and that part |
| JsText.Slice | pages/Home.tsx:38-41 | for ordered non-negative indices, the slice between them clamped to the list, and empty from the end onwards |
| DomainSuggest.DropMarks | pages/Domain.tsx:17 | no combining mark survives, and every character kept comes from the input |
| DomainSuggest.DropMarksUnchanged | pages/Domain.tsx:17 | text without combining marks is left alone |
| DomainSuggest.ReplaceChar | pages/Domain.tsx:17 | the same length, with exactly the occurrences of the pattern character replaced |
| DomainSuggest.RemoveAccents | pages/Domain.tsx:17 | the result has no combining mark and no `đ` or `Đ` |
| DomainSuggest.RemoveAccentsAscii | pages/Domain.tsx:17 | ASCII text comes through accent removal unchanged |
| DomainSuggest.SkipRun | pages/Domain.tsx:18 | the result is a suffix of the input; everything dropped is in the class; the result does not begin in the class |
| DomainSuggest.SkipRunKeeps | pages/Domain.tsx:18 | a character outside the class survives skipping the run |
| DomainSuggest.ReplaceRuns | pages/Domain.tsx:18-19 | every character of the result is a character of the replacement or a character of the input outside the class |
| DomainSuggest.ReplaceRunsUnchanged | pages/Domain.tsx:18 | text with no character of the class is unchanged |
| DomainSuggest.SluggedChars | pages/Domain.tsx:18 | after `[^a-z0-9\-]+` → `-` only `[a-z0-9-]` remains |
| DomainSuggest.CollapsedChars | pages/Domain.tsx:18 | collapsing dash runs keeps text within `[a-z0-9-]` |
| DomainSuggest.ReplaceRunsKeeps | pages/Domain.tsx:18 | every character outside the class survives the replacement |
| DomainSuggest.CollapsedHasNoDoubleDash | pages/Domain.tsx:18 | `-+` → `-` leaves no `--` |
| DomainSuggest.CollapseUnchanged | pages/Domain.tsx:18 | text without `--` is unchanged by collapsing |
| DomainSuggest.DropTrailingDashes | pages/Domain.tsx:18 | the result is a prefix; everything dropped is a dash; the result does not end with one |
| DomainSuggest.TrimDashes | pages/Domain.tsx:18 | the result neither starts nor ends with a dash |
| DomainSuggest.DashFramedPiece | pages/Domain.tsx:18 | a piece framed by dashes keeps every non-dash character and adds none |
| DomainSuggest.PieceKeepsSlugChars | pages/Domain.tsx:18 | a piece of slug text is slug text, and a piece of text without `--` has none |
| DomainSuggest.TrimDashesFacts | pages/Domain.tsx:18 | trimming keeps every non-dash character, adds none, keeps slug text slug text and free of `--`, and leaves text without edge dashes alone |
| DomainSuggest.Normalized | pages/Domain.tsx:17-19 | trim, lower-case and accent removal leave no combining mark and no `đ`/`Đ` |
| DomainSuggest.ProcessKeyword | pages/Domain.tsx:18 | the keyword has only `[a-z0-9-]`, no `--`, and no dash at either end |
| DomainSuggest.KeywordEmptyIff | pages/Domain.tsx:18 | the keyword is empty exactly when the normalised input has no letter `a`-`z` and no digit |
| DomainSuggest.AlnumReachesSlug | pages/Domain.tsx:18 | a letter or digit of the normalised input survives the three replacements |
| DomainSuggest.SlugCharFromInput | pages/Domain.tsx:18 | the first character of a non-empty keyword is a letter or digit of the normalised input |
| DomainSuggest.ProcessKeywordIdempotent | pages/Domain.tsx:18 | processing a processed keyword again returns it unchanged |
| DomainSuggest.NormalizedSlug | pages/Domain.tsx:17-18 | slug text passes trim, lower-casing and accent removal unchanged |
| DomainSuggest.BlankInputRefused | pages/Domain.tsx:18 | a blank input gives the empty keyword |
| DomainSuggest.KeepAlnum | pages/Domain.tsx:19 | the reference filter keeps only `[a-z0-9]` |
| DomainSuggest.DeleteRunsIsFilter | pages/Domain.tsx:19 | deleting each run of `[^a-z0-9]` is the same as keeping the letters and digits in order |
| DomainSuggest.ProcessKeywordForCombine | pages/Domain.tsx:19 | the combined form has only `a`-`z` and `0`-`9` |
| DomainSuggest.CombineIsFilter | pages/Domain.tsx:19 | the combined form is exactly the letters and digits of the normalised input, in order |
| DomainSuggest.ProcessKeywordKeepsAlnum | pages/Domain.tsx:18 | the slug keeps exactly the letters and digits of the normalised input, in order: the reference filter of the combined form |
| DomainSuggest.ReplaceRunsKeepsAlnum | pages/Domain.tsx:18 | replacing runs by text without letters or digits keeps the letters and digits of the input, in order |
| DomainSuggest.DropTrailingDashesKeepsAlnum | pages/Domain.tsx:18 | dropping the trailing dashes keeps every letter and digit |
| DomainSuggest.Appended | pages/Domain.tsx:24 | one entry per TLD, entry i being the stem followed by TLD i |
| DomainSuggest.SuffixDomains | pages/Domain.tsx:34-35 | three entries per suffix, suffix-major; entry 3i+j is `keyword-suffix_i` + TLD j |
| DomainSuggest.IndustryGroups | pages/Domain.tsx:27-32 | one industry group exactly when the combined industry is non-empty, holding combinedKeyword + combinedIndustry + each of the 7 TLDs |
| DomainSuggest.GenerateSuggestions | pages/Domain.tsx:23-38 | exactly 7 direct entries, entry i being the keyword + TLD i; at least one suggestion group |
| DomainSuggest.SuggestionGroups | pages/Domain.tsx:26-37 | one or two groups with distinct tabs; the industry group exists exactly when the combined industry is non-empty and holds 7 entries; the last group is the suffix group with 15 entries `keyword-suffix + tld` over the first three TLDs |
| DomainSuggest.ActiveTabAfterSearch | pages/Domain.tsx:50 | the contract of `FirstTab` on fresh results: the first tab is the industry tab when the combined industry is non-empty, the suffix tab otherwise |
| DomainSuggest.SearchGuard | pages/Domain.tsx:40-42 | the contract of the guard `SearchFor`: a search goes ahead exactly when the normalised input has a letter or digit; it then carries the processed, well-formed, non-empty keyword and the industry text |
| DomainSuggest.DomainSearch.constructor | pages/Domain.tsx:7-14 | empty inputs, empty results, no active tab, not loading, results hidden |
| DomainSuggest.DomainSearch.SetDomainInput | pages/Domain.tsx:90 | the domain input becomes the typed text |
| DomainSuggest.DomainSearch.SetIndustryInput | pages/Domain.tsx:91 | the industry input becomes the typed text |
| DomainSuggest.DomainSearch.SelectTab | pages/Domain.tsx:118 | a tab button makes its group active |
| DomainSuggest.DomainSearch.StartLoading | pages/Domain.tsx:44-45 | loading starts and the results are hidden |
| DomainSuggest.DomainSearch.Search | pages/Domain.tsx:40-46 | returns the guarded request for the current inputs; with no request nothing changes, otherwise loading starts and the results are hidden |
| DomainSuggest.DomainSearch.Complete | pages/Domain.tsx:47-51 | the results become the suggestions for the request; the active tab is the first group (industry when the combined industry is non-empty, else suffix); loading stops |
| DomainSuggest.DomainSearch.Publish | pages/Domain.tsx:49-51 | stores the results and the tab, and stops loading |
| DomainSuggest.DomainSearch.Reveal | pages/Domain.tsx:53 | the results become visible |
| AdminPanel.NewProject | pages/Admin.tsx:26-30 | the new project has the given id and the form's fields; its link is the form link when that is non-empty, otherwise `#`, so it is never empty |
| AdminPanel.WithoutId | pages/Admin.tsx:37 | the remaining projects are exactly those whose id differs, and the list does not grow |
| AdminPanel.WithoutIdAppend | pages/Admin.tsx:37 | the filter distributes over concatenation, so the remaining projects keep their order |
| AdminPanel.WithoutIdAbsent | pages/Admin.tsx:37 | deleting an id no project has changes nothing |
| AdminPanel.Entries | pages/Admin.tsx:43 | one entry per project, entry i being two spaces followed by the serialised project i |
| AdminPanel.ExportCode | pages/Admin.tsx:41-46 | the export starts with the import and array header and ends with the closing `\n];` |
| AdminPanel.ExportEmpty | pages/Admin.tsx:42-44 | an empty list exports to the header directly followed by the closing bracket |
| AdminPanel.EntriesSnoc | pages/Admin.tsx:43 | one more project gives one more entry at the end |
| AdminPanel.ExportFirst | pages/Admin.tsx:42-44 | a one-project list exports as just its entry inside the frame |
| AdminPanel.ExportAfterAdd | pages/Admin.tsx:42-44 | adding a project to a non-empty list appends `,\n` and its entry after the existing entries |
| AdminPanel.AdminPanel.constructor | pages/Admin.tsx:7-10 | the editor starts unauthenticated with an empty list, the empty form and no code |
| AdminPanel.AdminPanel.Authenticate | pages/Admin.tsx:12-22 | the single run of the login effect after mount: once authenticated nothing changes; otherwise exactly the answer `admin` authenticates and loads the initial list, and any other answer, or a dismissed prompt, is refused with the state unchanged |
| AdminPanel.AdminPanel.EditForm | pages/Admin.tsx:56-72 | in the unlocked editor, a field edit replaces the form |
| AdminPanel.AdminPanel.AddProject | pages/Admin.tsx:24-33 | in the unlocked editor, exactly one project, built from the form with the given id, is appended; the earlier entries are unchanged; the form is reset |
| AdminPanel.AdminPanel.DeleteProject | pages/Admin.tsx:35-39 | in the unlocked editor, a confirmed delete removes every project with the id; an unconfirmed one changes nothing; no project is ever added |
| AdminPanel.AdminPanel.GenerateCode | pages/Admin.tsx:41-46 | in the unlocked editor, the generated code is the export of the current list |
| HomePage.ItemsPerSlide | pages/Home.tsx:13-14 | one project per slide exactly when the viewport is at most 768 pixels wide, three otherwise |
| HomePage.TotalSlides | pages/Home.tsx:15 | the ceiling of the count over the projects per slide: enough slides for every project, and one fewer would not be; no slides exactly when there are no projects |
| HomePage.Advance | pages/Home.tsx:27-28 | from an index within the slides, auto-advance stays within them and moves to (index + 1) mod total; an index at or past the slide count only moves further away |
| HomePage.SliceWindow | pages/Home.tsx:38-41 | `slice(start, start + width)` is a window: at most `width` items, taken in order from `start`, and full when the list is long enough |
| HomePage.Slide | pages/Home.tsx:63 | slide k is the window of `ips` projects from k·ips |
| HomePage.SlidesArePrefix | pages/Home.tsx:60-63 | the first n slides laid end to end are exactly the first min(n·ips, length) projects |
| HomePage.Slides | pages/Home.tsx:60-63 | the first n slides laid end to end hold at most n·ips projects, and exactly n·ips when the list has that many |
| HomePage.SlidesCoverAll | pages/Home.tsx:60-63 | all slides together give back the whole project list in order |
| HomePage.Carousel.constructor | pages/Home.tsx:11-15 | the carousel starts on slide 0, rendered for the current width |
| HomePage.Carousel.VisibleProjects | pages/Home.tsx:38-41 | for a non-negative index, the visible projects are that index's slide at the width of the last render |
| HomePage.Carousel.Render | pages/Home.tsx:13-15 | a render reads the window's current width |
| HomePage.Carousel.Tick | pages/Home.tsx:23-36 | the timer callback moves the index by auto-advance over the slide count of the last render, keeping an in-range index in range; a changed index renders at the current width, an unchanged one renders nothing |
| HomePage.Carousel.GoToSlide | pages/Home.tsx:43-45 | the index becomes exactly the chosen slide; a changed index renders at the current width |
| HomePage.Carousel.Resize | pages/Home.tsx:13 | only the window's width changes: nothing renders, so the slide count of the last render and the index are kept |
| HomePage.ErrorFor | pages/Home.tsx:127 | the error shows the thrown message exactly when there is a non-empty one, otherwise the generic text |
| HomePage.AiGenerator.constructor | pages/Home.tsx:107-111 | empty fields, not loading, no result and no error |
| HomePage.AiGenerator.SetBrandName | pages/Home.tsx:147 | the brand name becomes the typed text |
| HomePage.AiGenerator.SetIndustry | pages/Home.tsx:148 | the industry becomes the typed text |
| HomePage.AiGenerator.Generate | pages/Home.tsx:113-121 | the service is called exactly when both fields are non-empty; otherwise the missing-input error is set and nothing else changes; when it is called, loading starts with the result and error cleared |
| HomePage.AiGenerator.Settle | pages/Home.tsx:123-130 | success stores the result, failure stores the error for its message; loading is off afterwards either way |

## Left out

- Markup, CSS classes, modals and their show/hide flags, the quote panel toggle and the success-message animation are presentation.
- `formatCurrency` (`Intl.NumberFormat` for `vi-VN` with rounding) is a library call. The messages are tags carrying the unformatted amount.
- IEEE-754 arithmetic: money, VAT and parsed numbers are exact reals, so rounding and overflow to `Infinity` are not modelled.
  - JsNumber.ParseFloat: reads an exponent of any size exactly, where JavaScript would overflow to `Infinity`. With an empty design subtotal, `0 * Infinity` would then give `NaN` in the page.
  - The `Infinity` literal is not recognised. It cannot reach the parser, because the code is upper-cased first and `parseFloat` is case-sensitive.
- Quote.NormalizeCode: `toUpperCase` is modelled on ASCII letters only; other letters are kept as they are.
- `PRICES_BASE` is a plain object, so an id such as `toString` would find an inherited property. Only the table's own keys are modelled.
- The HTML `required` attributes on the admin form are browser validation and are not modelled. `AddProject` accepts any form.
- `Date.now()`, `prompt`, `alert`, `confirm` and the clipboard are I/O. The id and the two answers are arguments; `alert` and the clipboard are dropped.
- `JSON.stringify` is a parameter of the export. `JSON.parse(JSON.stringify(...))`, the deep copy at login, is the identity on the initial list. That list is a constructor argument rather than the content of data/projectsData.ts.
- `toLowerCase` and `normalize("NFD")` on the domain page are the parameters in `UnicodeOps`; Unicode case mapping and decomposition are not modelled.
- Timers: the 4-second carousel timeout and its reset on every change, the 500 ms search delay and the 50 ms reveal delay are modelled as the methods the callbacks run (`Tick`, `Complete`, `Reveal`). When they fire, and whether they overlap, is not modelled.
- The slogan service (services/geminiService.ts) and the Formspree submissions are network calls. The service's outcome is the argument of `Settle`; the Formspree forms are left out.
- Admin login: the effect depends only on `isAuthenticated`, so a refused or dismissed prompt leaves the page locked and never prompts again until the page is mounted anew. `Authenticate` models that single run after mount; remounting is not modelled.
- HomePage.Carousel.GoToSlide: accepts any index. The page only offers the dot indices 0 to total − 1, which is a property of the markup.
- HomePage.Carousel.Resize: the carousel has no resize listener, so a new width takes effect only at the next render caused by a tick or a dot. A render at a width that lowers the slide count can leave the index past the last slide. Auto-advance then never returns to it, as the contract of `Advance` states; the model keeps that behaviour.
- HomePage.Carousel.Tick: when a tick leaves the index as it was (a single slide), nothing renders and the effect does not schedule another timeout, so the carousel stops; the model does not track whether a timeout is pending.
- pages/Hosting.tsx, pages/Projects.tsx, components/Header.tsx, components/Footer.tsx and the routing in app.tsx are static content or navigation, and are not part of this model.
