# Portfolio website: a verified model of its behaviour

The site is a single-page React application with four pages: Home, Projects,
Skills and Contact. Most of it is static markup. This project models the parts
that hold discrete behaviour:

- **Contact form** (`contact.dfy`, module `ContactPage`). The four-field
  validator is modelled with the ECMAScript meaning of `trim()` and of the
  unanchored email test `/\S+@\S+\.\S+/` (`js_string.dfy`, module `JsString`).
  The component state is a class. `handleChange` and `handleSubmit` are
  methods. The two `setTimeout` continuations are explicit "timer fires"
  methods.
- **Project filter** (`projects.dfy`, module `ProjectsPage`). This covers the
  fixed project list, `Array.filter` by category, the `all` identity case, the
  empty-state branch and the active-button rule. The component's
  `activeFilter`/`filteredProjects` state is a class whose click and effect are
  separate steps.
- **Skills page** (`skills.dfy`, module `SkillsPage`). `renderSkillBar` is a
  method with its `for` loop. The group-by-category `reduce` is a method that
  fills a map and records its insertion-ordered key list. The section key order
  and the titles are also modelled.
- **App shell** (`shell.dfy`, module `Shell`). The route table is matched the
  way react-router's v6 matcher treats these four paths: ASCII letters without
  case, and any number of trailing slashes. The first matching route wins, and
  the `*` route catches the rest. `ErrorBoundary` is a class whose `Render`
  picks the children or a fallback. The `App` loading gate is a class with its
  timer, its cleanup and the boundary around the routed content.
- **Header** (`header.dfy`, module `Header`). This covers the `isMenuOpen`
  state, `toggleMenu`, the nav-link click, the logo link and the `navLinks`
  table.

`sequences.dfy` defines order-preserving subsequences and distinctness.
`wrappers.dfy` defines `Option`, which also stands for an absent or falsy
JavaScript value.

A `setTimeout` callback is an event method that needs a scheduled callback
that has not fired yet. Class `ContactForm` keeps counters of these. Class
`App` keeps a `timerPending` flag, and `Unmount` (the effect's cleanup) clears
it.

Whitespace is the ECMAScript WhiteSpace and LineTerminator set (`IsSpace`).
`trim` and the regular expression's `\S` use that same set. A `trim()` result
is falsy exactly when it is empty, and `TrimEmptyIffAllSpace` shows that this
happens exactly when every character is whitespace.

The model follows the code:

- Only a click on one of the four nav-list links closes the menu. The logo link
  and other navigations leave it alone.
- The header has no active-link highlighting.

## Model

| member | source | states |
|---|---|---|
| JsString.Trim | src/pages/Contact.tsx:44 | `String.prototype.trim` on ECMAScript whitespace; its result never grows, and TrimShape and TrimEmptyIffAllSpace say what it is |
| JsString.TrimStartShape | src/pages/Contact.tsx:44 | leading part of `trim`: keeps a suffix, drops only whitespace, and what remains does not start with whitespace |
| JsString.TrimEndShape | src/pages/Contact.tsx:44 | trailing part of `trim`: keeps a prefix, drops only whitespace, and what remains does not end with whitespace |
| JsString.TrimShape | src/pages/Contact.tsx:44 | `trim()` returns a slice of the input with only whitespace outside it, and the slice has no whitespace at either end |
| JsString.TrimEmptyIffAllSpace | src/pages/Contact.tsx:44 | `!value.trim()` holds exactly when the value is all whitespace (empty included) |
| ContactPage.FormData.With | src/pages/Contact.tsx:34-37 | the functional update `{...prev, [name]: value}` sets the named field and keeps the other three |
| ContactPage.RegexTest | src/pages/Contact.tsx:52 | the meaning of `/\S+@\S+\.\S+/.test`: some window is non-ws+ `@` non-ws+ `.` non-ws+; EmailPatternIsRegex ties the scan to it |
| ContactPage.EmailPattern | src/pages/Contact.tsx:52 | the executable scan for that window; EmailPatternIsRegex proves it equal to RegexTest |
| ContactPage.DotTailMeaning | src/pages/Contact.tsx:52 | the scan for the `\S+\.\S+` tail succeeds exactly when some `.` followed by a non-space is reached through non-whitespace only |
| ContactPage.ScanFromMeaning | src/pages/Contact.tsx:52 | the scan for `@` succeeds exactly when some position at or after the start matches the pattern |
| ContactPage.EmailPatternIsRegex | src/pages/Contact.tsx:52 | the executable email test holds exactly when some substring is non-ws+ `@` non-ws+ `.` non-ws+ (the unanchored regex on the untrimmed value) |
| ContactPage.EmailPatternExamples | src/pages/Contact.tsx:52 | "foo" fails the test; "a@b.c" and "x y@z.w" pass it |
| ContactPage.FieldError | src/pages/Contact.tsx:44-65 | one field's entry of `newErrors`: required when blank after trimming, else invalid for a failing email, else none; RequiredErrorIffBlank and EmailError describe it |
| ContactPage.Validate | src/pages/Contact.tsx:40-68 | the whole error object `validateForm` builds, one entry per field; ValidIff and ErrorDependsOnlyOnField describe it |
| ContactPage.RequiredErrorIffBlank | src/pages/Contact.tsx:44-65 | name, subject and message each get their own "is required" error exactly when blank after trimming |
| ContactPage.EmailError | src/pages/Contact.tsx:49-55 | a blank email gets "Email is required" whatever the format; a non-blank one gets "Email is invalid" exactly when the regex does not match |
| ContactPage.ErrorDependsOnlyOnField | src/pages/Contact.tsx:40-65 | each field's error depends on that field's value alone |
| ContactPage.ValidIff | src/pages/Contact.tsx:40-68 | the error object is empty exactly when all four fields are non-blank and the email matches |
| ContactPage.BlankFormReportsEveryField | src/pages/Contact.tsx:40-65 | an all-blank form (the empty form included) reports all four "required" errors together |
| ContactPage.MalformedEmailOnlyError | src/pages/Contact.tsx:49-55 | with email "foo" and the other fields filled, the only error is "Email is invalid" |
| ContactPage.ContactForm.constructor | src/pages/Contact.tsx:19-28 | initial state: empty fields, no errors, not submitting, no notice, no timers |
| ContactPage.ContactForm.HandleChange | src/pages/Contact.tsx:30-38 | only the named field takes the new value |
| ContactPage.ContactForm.ValidateForm | src/pages/Contact.tsx:40-69 | the step-by-step build of `newErrors` yields exactly `Validate(formData)`, replaces `errors` wholesale, and returns whether it is empty |
| ContactPage.ContactForm.HandleSubmit | src/pages/Contact.tsx:71-76 | an invalid submit changes only `errors`; a valid one also sets `isSubmitting` and schedules the send |
| ContactPage.ContactForm.SendTimerFires | src/pages/Contact.tsx:78-90 | the send completes: not submitting, notice non-empty, all four fields "", and the clear is scheduled |
| ContactPage.ContactForm.ClearTimerFires | src/pages/Contact.tsx:91-93 | the later step sets only `submitMessage` to "" |
| ContactPage.ValidSubmissionScenario | src/pages/Contact.tsx:71-96 | a valid form is accepted, the notice appears with the fields reset, and then the notice disappears |
| ContactPage.EmptySubmissionScenario | src/pages/Contact.tsx:40-76 | submitting the untouched form is refused with all four errors and does not start submitting |
| ProjectsPage.FilterByCategory | src/pages/Projects.tsx:114 | `projects.filter(p => p.category === c)`; FilterCounts, FilterMembership and FilterIsSubsequence describe it |
| ProjectsPage.FilteredFor | src/pages/Projects.tsx:110-117 | the effect's choice: the whole list for `all`, else the filter; FilteredData gives its value for each category |
| ProjectsPage.FilterCounts | src/pages/Projects.tsx:114 | the filter keeps every project of the category as many times as it occurs, and nothing else |
| ProjectsPage.FilterMembership | src/pages/Projects.tsx:114 | a project is in the filtered list exactly when it is in the list and has the selected category |
| ProjectsPage.FilterIsSubsequence | src/pages/Projects.tsx:114 | the filtered list keeps the original relative order |
| ProjectsPage.ProjectData | src/pages/Projects.tsx:35-103 | every project is web, mobile or desktop, and the ids are 1 to 6, so they are distinct |
| ProjectsPage.FilteredData | src/pages/Projects.tsx:110-117 | `all` gives the whole list; web gives ids 1-4, mobile gives id 5, desktop gives id 6 |
| ProjectsPage.RenderShowcase | src/pages/Projects.tsx:153-158 | an empty list renders "No projects found", a non-empty one renders the grid of exactly its cards |
| ProjectsPage.EveryFilterShowsGrid | src/pages/Projects.tsx:153-158 | with the hard-coded data no selection reaches the empty state |
| ProjectsPage.ActiveMarkers | src/pages/Projects.tsx:141 | a button carries `active` exactly when its value equals `activeFilter` |
| ProjectsPage.ExactlyOneActive | src/pages/Projects.tsx:27-32 | the option values are distinct, so exactly one button is active |
| ProjectsPage.ProjectsView.constructor | src/pages/Projects.tsx:106-107 | initially `all` is selected and the full list is shown |
| ProjectsPage.ProjectsView.HandleFilterChange | src/pages/Projects.tsx:120-122 | a click sets only `activeFilter` |
| ProjectsPage.ProjectsView.FilterEffect | src/pages/Projects.tsx:110-117 | the effect makes the list the one for the current selection |
| ProjectsPage.ProjectsView.SelectFilter | src/pages/Projects.tsx:110-122 | after click and effect the list matches the selection, and re-selecting the current category leaves the list unchanged |
| SkillsPage.RenderSkillBar | src/pages/Skills.tsx:41-52 | exactly five bars keyed 1..5, bar i filled iff i <= level, so the filled count is the level clamped to 0..5 |
| SkillsPage.GroupOf | src/pages/Skills.tsx:54-60 | the array the reduce builds for one category; GroupMembership, GroupIsSubsequence and GroupOfAppend describe it |
| SkillsPage.FirstAppearance | src/pages/Skills.tsx:54-60 | the reduce's key order; FirstAppearanceKeys and KeysInFirstAppearanceOrder describe it |
| SkillsPage.CategoryTitle | src/pages/Skills.tsx:62-67 | `categoryTitles`, looked up per key; SectionTitles states its titles are non-empty and distinct |
| SkillsPage.GroupByCategory | src/pages/Skills.tsx:54-60 | the reduce yields keys in first-appearance order, one per category in use, each holding that category's skills in input order |
| SkillsPage.GroupOfAppend | src/pages/Skills.tsx:58 | pushing a skill extends the group of its own category and no other |
| SkillsPage.GroupMembership | src/pages/Skills.tsx:54-60 | a skill is in the group of category c exactly when it is one of the skills and its category is c, so it is in exactly one group |
| SkillsPage.GroupIsSubsequence | src/pages/Skills.tsx:58 | each group keeps the skills' original relative order |
| SkillsPage.FirstAppearanceKeys | src/pages/Skills.tsx:55-57 | the keys are distinct, and a category is a key exactly when some skill has it |
| SkillsPage.KeysInFirstAppearanceOrder | src/pages/Skills.tsx:54-60 | for any skill list, every skill of a later key comes after some skill of each earlier key |
| SkillsPage.FlattenIsPermutation | src/pages/Skills.tsx:54-60 | concatenating the groups of distinct covering keys gives a permutation of the skills |
| SkillsPage.GroupsPartitionSkills | src/pages/Skills.tsx:54-60 | the groups, concatenated in key order, are a permutation of the skills, and their sizes add up to the skill count |
| SkillsPage.SkillSectionOrder | src/pages/Skills.tsx:83 | on the data the sections come out as frontend, backend, tools, other |
| SkillsPage.SkillLevelsInRange | src/pages/Skills.tsx:6-39 | every skill level in the data lies in 1..5 |
| SkillsPage.SectionTitles | src/pages/Skills.tsx:62-67 | every group key has a title in `categoryTitles`, and the titles are distinct |
| Shell.Matches | src/App.tsx:98-102 | a route's compiled pattern: the path is the route's path up to ASCII case, then zero or more slashes |
| Shell.Lookup | src/App.tsx:98-105 | the first explicit route whose pattern matches; LookupFinds and LookupMisses describe it |
| Shell.Resolve | src/App.tsx:98-105 | the page shown for a path: the matching explicit route, else the `*` route's Home |
| Shell.LookupFinds | src/App.tsx:98-102 | a path finds the first route whose pattern matches it |
| Shell.LookupMisses | src/App.tsx:98-104 | a table finds nothing exactly when none of its patterns matches, so the catch-all applies |
| Shell.RoutePathsDistinct | src/App.tsx:99-102 | the four explicit paths are `/`, `/projects`, `/skills` and `/contact`, all distinct |
| Shell.RoutePatternsDisjoint | src/App.tsx:99-102 | no path matches two explicit routes, so the order of the four never decides a match |
| Shell.ResolveExplicit | src/App.tsx:99-102 | a path matching an explicit route resolves to its page |
| Shell.ResolveTable | src/App.tsx:99-102 | `/`, `/projects`, `/skills` and `/contact` resolve to Home, Projects, Skills and Contact |
| Shell.ResolveIgnoresCase | src/App.tsx:99-102 | `/Projects` reaches Projects |
| Shell.ResolveIgnoresTrailingSlashes | src/App.tsx:99-102 | `/projects/` and `/contact//` reach their pages, and `//` reaches Home |
| Shell.ResolveNoPrefixMatch | src/App.tsx:104 | `/projects/x` and `/project` match no explicit route and show Home |
| Shell.ResolveCatchAll | src/App.tsx:104 | any path no explicit route matches resolves to Home |
| Shell.ErrorBoundary.constructor | src/App.tsx:17 | a boundary starts healthy: `hasError` false, no error |
| Shell.ErrorBoundary.CatchRenderError | src/App.tsx:19-25 | a caught error sets `hasError`, stores the error and logs it |
| Shell.ErrorBoundary.Render | src/App.tsx:27-42 | children exactly while healthy; once failed, the `fallback` prop if given, else the default view |
| Shell.FailedIsTerminal | src/App.tsx:16-43 | whatever its state, a boundary that catches an error is failed afterwards and does not render its children |
| Shell.App.constructor | src/App.tsx:77-83 | the app starts loading, with the timer scheduled and a healthy boundary without a fallback prop |
| Shell.App.TimerFires | src/App.tsx:81-83 | the timer ends loading; nothing sets `isLoading` back |
| Shell.App.Unmount | src/App.tsx:85 | the cleanup cancels the timer, so its callback cannot fire afterwards |
| Shell.App.ContentThrows | src/App.tsx:19-25 | an error thrown by the routed content is caught by the App's boundary and logged |
| Shell.App.Render | src/App.tsx:88-110 | while loading only the spinner renders; afterwards a healthy boundary shows the page for the path, a failed one the default error view for every path |
| Shell.CrashScenario | src/App.tsx:28-38 | after loading a path shows its page; once a page throws, every path shows the default error view |
| Header.NavLinksMatchRoutes | src/components/Header.tsx:13-18 | four links with distinct paths, equal to the explicit routes and resolving to the pages they name |
| Header.HeaderMenu.constructor | src/components/Header.tsx:11 | the menu starts closed |
| Header.HeaderMenu.ToggleMenu | src/components/Header.tsx:20-22 | `toggleMenu` flips `isMenuOpen` |
| Header.ToggleTwice | src/components/Header.tsx:20-22 | toggling twice restores the original state |
| Header.HeaderMenu.ClickNavLink | src/components/Header.tsx:45-48 | a nav-list link click closes the menu whatever its state, and goes to that link's path |
| Header.HeaderMenu.ClickLogo | src/components/Header.tsx:27-29 | the logo link goes to `/` (Home) and leaves the menu unchanged |
| Header.HeaderMenu.Render | src/components/Header.tsx:37-41 | `nav-open` and `open` are both present exactly when the menu is open |

## Left out

- Markup, CSS class strings and the static text of every page are not modelled. The Home page and the footer are static. The footer's year comes from a clock read.
- Project records keep only `id`, `title` and `category`. Descriptions, image, technologies and the optional demo and code links are display-only.
- SkillsPage.RenderSkillBar: levels are integers. A fractional `number` level would fill `floor(level)` bars, and the model does not capture that.
- Timer delays (800 ms, 1500 ms, 5000 ms) and real scheduling are not modelled. Each continuation is an event method that may fire only while it is pending.
- The contact page registers no cleanup, so its pending callbacks outlive an unmount. The model has no unmount for it.
- The model does not represent the submit button being disabled while `isSubmitting`. `HandleSubmit` is modelled as the handler is written, with no guard.
- Browser side effects are not modelled: `window.scrollTo` (the scroll-to-top component), `window.location.reload` (the fallback's button), and `console.error`. The last is recorded as the boundary's `logged` list.
- Router internals are not modelled: HashRouter's reading of the URL hash, `useLocation`, Suspense, percent-decoding of the path, and react-router's general route ranking. The matcher is modelled only for these paths: each is already in compiled form, and each is ASCII. With the four patterns disjoint, taking the first match and then the `*` route gives the same page as that ranking.
- Shell.Fold: folds ASCII letters only. It matches the `i` flag exactly on these ASCII patterns, but does not model case-insensitive comparison of two non-ASCII characters.
- A general regular-expression engine is not modelled. The one pattern is an existential predicate plus an executable scan, proved equal.
- React's rendering machinery (batching, re-render scheduling) is left out. The projects page's effect is an explicit step after the click.
