# Portfolio terminal, typer and card logic in Dafny

A React portfolio site is mostly markup and animation. A few small pieces of
logic sit behind it, and this project models them as pure functions over
immutable records and proves what they do:

- **Hero terminal** (`terminal.dfy`, `hero.dfy`). The command interpreter of
  the hero section:
  - the input is trimmed and lower-cased, and the result is looked up as one
    whole key in a table of seven commands;
  - a `$ key` echo line is appended to the log;
  - each output line is "typed" into the last log slot, prefix by prefix;
  - a command with an action types `Executing action...` and then runs the
    action.

  Each write to React state is one `Event`. A submission is the list of events
  `handleCommand` produces, and `Run` folds them over the state
  `(log, input, isTyping)`.
- **Boot typer** (`boot.dfy`). The loading screen's two-counter machine (message
  index, character index). It reveals the five boot messages one prefix at a
  time.
- **Navigation bar** (`navigation.dfy`). This covers:
  - which section the scroll position selects;
  - what a `#section` location selects;
  - the navigation handler;
  - the mobile menu toggle, with its delayed close.
- **Project and experience cards** (`cards.dfy`, `home_projects.dfy`,
  `projects_page.dfy`, `experience.dfy`). This covers:
  - tech colours with their fallback;
  - the ten-cell contribution bar;
  - chip selection and chip borders;
  - the link buttons and the title slug;
  - card indices;
  - the projects page's summary counters;
  - the data-coverage facts the cards rely on (every looked-up tech has an entry).
- **Skills summary** (`skills.dfy`). The per-category counts and the total,
  which is computed by a loop.
- **Contact form** (`contact.dfy`). Per-field edits, the e-mail request built on
  submit, and how success or failure of the send settles the form.

`text.dfy` holds the string helpers (`trim`, `toLowerCase`, the
`/\s+/g → "-"` slug), and `options.dfy` holds `Option` with JavaScript
truthiness.

Where the code and its description disagree, the model follows the code:

- `typeText` always overwrites the last log slot (`prev.slice(0, -1)`). A
  finished command therefore leaves exactly one new line: the last text it
  typed, which replaces the `$ key` echo. It does not leave the echo plus all
  its output lines.
- The not-found message is built from the normalised key, not from the raw
  input: `FooBar` gives `bash: foobar: command not found`.
- The fourth nav label is spelt `proejcts`, as on the page.
- The home page's `ProjectCard` is declared inside `Projects`, so each re-render of the section (a theme switch, the first scroll into view) mounts the cards again and drops the chip a visitor clicked (`HomeProjects.Remount`).

## Model

| member | source | states |
|---|---|---|
| Terminal.Normalise | src/pages/Home/Hero.jsx:90-91 | the lookup key has no upper-case letter and no whitespace at either end, and it is empty exactly when the input is all whitespace |
| Terminal.NormalisePadded | src/pages/Home/Hero.jsx:91 | the key of a command typed between whitespace is exactly the lower-cased command: trimming drops the padding and every letter is lower-cased |
| Terminal.Submit | src/pages/Home/Hero.jsx:89-90 | a key other than Enter, or Enter on whitespace-only input, leaves log, input and typing flag unchanged |
| Terminal.DropLast | src/pages/Home/Hero.jsx:81 | `slice(0, -1)` keeps every entry but the last, and an empty log stays empty |
| Terminal.TypeText | src/pages/Home/Hero.jsx:76-86 | a reveal turns typing on first and off last; in between it writes `text[..k]` into the last slot for k = 0, 1, …, \|text\| in order, then the full text once more |
| Terminal.RevealFrame | src/pages/Home/Hero.jsx:77-83 | after the first k + 2 events of a reveal, the last slot shows the prefix of length k and typing is on; every earlier entry and the input are untouched |
| Terminal.RevealDone | src/pages/Home/Hero.jsx:76-86 | a finished reveal leaves the whole text in the last slot and typing off, and changes nothing else |
| Terminal.RevealKeepsEarlier | src/pages/Home/Hero.jsx:81-84 | on a non-empty log, a reveal keeps the log's length and all entries but the last, and the last entry becomes the text |
| Terminal.RevealAllPrefix | src/pages/Home/Hero.jsx:97-99 | output lines are revealed in order: after the first j + 1 of them, line j is in the last slot and the rest of the log is as before |
| Terminal.RevealAllDone | src/pages/Home/Hero.jsx:97-99 | after all output lines are revealed, only the last of them is left in the slot the echo occupied |
| Terminal.ActionOutcome | src/pages/Home/Hero.jsx:100-103 | the action tail types `Executing action...` into the last slot and then runs the action; `clear` empties the log, while the download leaves the log as typed |
| Terminal.PerformOutcome | src/pages/Home/Hero.jsx:95-103 | running a found command after its echo leaves the log before the echo plus the one line `CommandLog` names; typing stays on only when nothing was typed |
| Terminal.EchoStep | src/pages/Home/Hero.jsx:90-93 | an accepted Enter first appends `$ key` and clears the input buffer, and then does what the lookup decides |
| Terminal.SubmitOutcome | src/pages/Home/Hero.jsx:89-107 | an Enter on non-blank input clears the input and leaves the log equal to the event-free reference `ExpectedLog`: the old log plus the last typed line, the not-found line for an unknown key, or nothing at all after `clear` |
| Terminal.ActionRunsOnceAtEnd | src/pages/Home/Hero.jsx:97-103 | for a command with an action, the invocation is the last event and no earlier event invokes anything; just before it, the log is the old log plus `Executing action...` and typing is off |
| Terminal.ActionTrace | src/pages/Home/Hero.jsx:92-103 | the same ordering, stated for the echo followed by any command that has an action |
| Terminal.NoInvokeInReveals | src/pages/Home/Hero.jsx:97-99 | revealing output lines never invokes an action |
| Terminal.InvokesIffAction | src/pages/Home/Hero.jsx:89-107 | a key press invokes an action exactly when it is Enter on a non-blank input whose key names a command that carries one; an unknown key or a command without an action invokes nothing |
| Terminal.EchoedInvokes | src/pages/Home/Hero.jsx:92-107 | after the echo, the response invokes an action exactly when the key names a command with one |
| Terminal.NoInvokeInResponse | src/pages/Home/Hero.jsx:95-106 | the not-found response and the response of a command without an action invoke nothing |
| Hero.RegistryKeys | src/pages/Home/Hero.jsx:19-73 | the table has exactly the seven keys, and `cat skills.txt` is one key: neither `cat` nor `skills.txt` is a key |
| Hero.HelpMixedCase | src/pages/Home/Hero.jsx:91 | `"  HELP "` normalises to `help`, which is a key |
| Hero.SilentCommandsHaveActions | src/pages/Home/Hero.jsx:19-73 | every command without an action has at least one output line |
| Hero.LineKinds | src/pages/Home/Hero.jsx:232 | the `$ key` echo renders as input; the not-found and executing lines render as output |
| Hero.QuietOutcome | src/pages/Home/Hero.jsx:95-99 | a found command without an action leaves the old log plus its last output line, an empty input and typing off, and invokes no action |
| Hero.ClearOutcome | src/pages/Home/Hero.jsx:50-53 | a command whose action clears the terminal leaves an empty log whatever the log held |
| Hero.WhoamiScenario | src/pages/Home/Hero.jsx:20-23 | `whoami` adds only its second line to the log |
| Hero.NotFoundOutcome | src/pages/Home/Hero.jsx:104-106 | a key outside the table adds the one line `bash: <key>: command not found` and invokes no action |
| Hero.UnknownScenario | src/pages/Home/Hero.jsx:91 | the input `FooBar` adds `bash: foobar: command not found`, built from the lower-cased key |
| Hero.ClearEmpties | src/pages/Home/Hero.jsx:50-53 | `clear` empties any log, and a second `clear` on the empty log changes nothing |
| Hero.ResumeScenario | src/pages/Home/Hero.jsx:32-49 | `resume` starts the download exactly once, as the last event, after `Executing action...` is shown |
| Hero.InheritedEchoOnly | src/pages/Home/Hero.jsx:95-97 | with the lookup as written, an inherited property name leaves only its echo in the log |
| Hero.InheritedKeyFinding | src/pages/Home/Hero.jsx:95-97 | `constructor`: as written the echo stays with no message; with the own-key lookup it is reported as not found |
| Hero.AsWrittenAgreesElsewhere | src/pages/Home/Hero.jsx:95-106 | the as-written lookup and the own-key lookup produce the same events for every key that is not an inherited name |
| Boot.Step | src/components/Loader.jsx:25-39 | one callback call moves the message index by at most one, does nothing after the last message, and leaves typing on exactly while a prefix is being shown |
| Boot.Ticks | src/components/Loader.jsx:28-39 | each message costs at least two callback calls |
| Boot.StartValid | src/components/Loader.jsx:21-23 | the typer starts in its invariant |
| Boot.StepValid | src/components/Loader.jsx:25-39 | each call keeps the invariant: finished messages shown in full, the current one as the prefix before the character index, typing on exactly while that prefix is visible |
| Boot.VisiblePrefixes | src/components/Loader.jsx:28-32 | every visible entry is a prefix of the boot message at the same index |
| Boot.Reveal | src/components/Loader.jsx:28-34 | starting a message, k + 1 calls show its first k characters with typing on, so a message passes through \|message\| + 1 visible states (with each updater applied at its call) |
| Boot.FinishMessage | src/components/Loader.jsx:35-39 | the call after the last prefix shows the message in full, clears the typing flag, moves to the next message and resets the character index |
| Boot.Finished | src/components/Loader.jsx:25 | once every message is done, nothing changes, and the messages equal the boot messages |
| Boot.StepTicks | src/components/Loader.jsx:28-39 | each call adds one to the count of calls spent on the messages so far |
| Boot.RunBoot | src/components/Loader.jsx:21-47 | running the callback until the typer stops terminates, because (messages left, characters left) decreases; it ends with every message shown in full and typing off, after exactly `Ticks` calls |
| Boot.BootTicks | src/components/Loader.jsx:12-18 | the five boot messages take 112 callback calls |
| Navigation.Scan | src/components/Navbar.jsx:107-125 | the downward loop returns a section that claims the position and no higher one claims it; with no result, no section claims it |
| Navigation.OnScroll | src/components/Navbar.jsx:99-126 | off the home path, or when no section claims position scrollY + 200, the active section stays; otherwise it becomes the highest section in page order that claims that position, the one the downward loop meets first |
| Navigation.ScanHighest | src/components/Navbar.jsx:107-117 | any claiming section yields a result at or above it, so the highest claiming section wins |
| Navigation.LastSectionWins | src/components/Navbar.jsx:120-123 | the last section, when present and the position is at or past its top, is chosen whatever its height |
| Navigation.ContactWins | src/components/Navbar.jsx:103-123 | on the home page, `contact` is selected as soon as the position reaches its top |
| Navigation.AbsentSkipped | src/components/Navbar.jsx:108-109 | a section missing from the document never claims the position |
| Navigation.RemoveFirst | src/components/Navbar.jsx:143 | `replace("#", "")` keeps a string without `#` as it is, and otherwise removes exactly one character |
| Navigation.RemoveFirstSplit | src/components/Navbar.jsx:143 | only the first `#` goes; later ones stay |
| Navigation.ParseUrl | src/components/Navbar.jsx:177 | the router target (targets carry no query string) splits at its first `#`: the path is everything before it and has no `#`; the hash is the rest from that `#` on, so path plus hash give back the URL, and a `#` with nothing after it gives an empty hash |
| Navigation.OnLocation | src/components/Navbar.jsx:141-144 | on the home path with a hash, the active section becomes the hash without its `#`; otherwise it stays |
| Navigation.HandleNavigation | src/components/Navbar.jsx:166-179 | the section becomes active and the menu closes at once; a router target exists exactly off the home path, and it is `/#` followed by the id |
| Navigation.NavigationRoundTrip | src/components/Navbar.jsx:141-177 | navigating to `/#id` from another page and running the location effect marks `id` active |
| Navigation.HashKeepsLaterMarks | src/components/Navbar.jsx:143 | a hash `#rest` selects `rest`, including any later `#` in it |
| Navigation.Toggle | src/components/Navbar.jsx:193-202 | a closed menu opens at once; an open menu stays open and gets one more delayed close |
| Navigation.CloseFires | src/components/Navbar.jsx:196-198 | a delayed close closes the menu whatever happened since it was scheduled |
| Navigation.ToggleTwice | src/components/Navbar.jsx:193-202 | opening and then toggling again leaves the menu open until the delayed close fires |
| Navigation.StaleCloseAfterReopen | src/components/Navbar.jsx:168-202 | a close scheduled before a navigation still closes a menu that was reopened afterwards |
| Navigation.NavIdsAreSections | src/components/Navbar.jsx:181-187 | the nav item ids are the scroll handler's section ids, and they are distinct |
| Navigation.AtMostOneActive | src/components/Navbar.jsx:189-191 | with distinct ids, at most one item is active, and it is the one whose id is the active section |
| Cards.TechColor | src/pages/Home/Projects.jsx:161-175 | a tech mapped to a non-empty colour gets that colour; a tech that is neither in the table nor an `Object.prototype` name, or one mapped to the empty string, gets the accent `#C778DD` |
| Cards.BorderColor | src/pages/Home/Projects.jsx:242-244 | the active chip's border is its tech colour; every other chip's border is the mode's grey |
| Cards.HighlightIffActive | src/pages/Home/Projects.jsx:242-244 | on a palette without the greys, a chip shows its tech colour exactly when it is the active one |
| Cards.Bar | src/pages/Home/Projects.jsx:291-292 | the bar exists exactly for 0 ≤ p < 110; it is 12 characters with brackets at both ends, and cell i is full exactly when i ≤ floor(p / 10) |
| Cards.BarMonotone | src/pages/Home/Projects.jsx:291 | more proficiency never empties a cell |
| Cards.BarEnds | src/pages/Home/Projects.jsx:291-292 | 0 gives ten empty cells and 100 ten full ones; -1 and 110 give no bar |
| Cards.Buttons | src/pages/Projects/ProjectsPage.jsx:307-334 | each button is present exactly when its field is truthy and carries that field's URL; when both are present, the order follows the page |
| HomeProjects.InitCard | src/pages/Home/Projects.jsx:188 | the selection starts at the first tech, or is undefined for an empty stack |
| HomeProjects.ClickChip | src/pages/Home/Projects.jsx:190-194 | clicking a chip selects its tech |
| HomeProjects.Remount | src/pages/Home/Projects.jsx:12-14 | a re-render of the section mounts each card again, so its selection is the first tech once more |
| HomeProjects.RemountResets | src/pages/Home/Projects.jsx:187-188 | a remount keeps the card valid and discards a click: the card equals a freshly mounted one, which differs from the clicked one whenever another tech was selected |
| HomeProjects.ShownProficiency | src/pages/Home/Projects.jsx:267 | the label's number exists exactly when the selected tech has a contribution entry, and it is that entry's proficiency |
| HomeProjects.InitValid | src/pages/Home/Projects.jsx:188 | the initial selection is one of the stack's techs |
| HomeProjects.ClickValid | src/pages/Home/Projects.jsx:233-239 | after any click the selection is still one of the stack's techs |
| HomeProjects.ProjectsCovered | src/pages/Home/Projects.jsx:103-159 | every tech of every featured stack has a proficiency between 0 and 100 and an icon |
| HomeProjects.ValidCardShowsBar | src/pages/Home/Projects.jsx:267-292 | on a covered project, every reachable card shows a label and a bar |
| HomeProjects.FeaturedCardsShowBars | src/pages/Home/Projects.jsx:188-292 | the starting card and every clicked card of the featured projects show their label and bar |
| HomeProjects.OnlyActiveHighlighted | src/pages/Home/Projects.jsx:242-244 | on the home cards, exactly the selected chip gets its colour on the top, right and bottom borders |
| HomeProjects.ModeDependentColours | src/pages/Home/Projects.jsx:161-175 | Express is the one tech whose colour follows the mode; techs that are neither in the table nor `Object.prototype` names get the accent |
| HomeProjects.FeaturedButtons | src/pages/Home/Projects.jsx:299-336 | Otopilot shows only a demo button; Uber and Spotify show only a code button |
| HomeProjects.OtopilotSlug | src/pages/Home/Projects.jsx:212 | the first card's header reads `otopilot-dashboard` |
| ProjectsPage.CardIndices | src/pages/Projects/ProjectsPage.jsx:435-473 | complete apps get indices 0 to n - 1, and small projects continue after them, so card k gets index k |
| ProjectsPage.IndicesDistinct | src/pages/Projects/ProjectsPage.jsx:435-473 | all card indices are pairwise distinct |
| ProjectsPage.SmallIndexOffset | src/pages/Projects/ProjectsPage.jsx:473 | small project i gets index i plus the number of complete apps |
| ProjectsPage.TechSet | src/pages/Projects/ProjectsPage.jsx:500 | every tech named in any stack is in the set |
| ProjectsPage.TechSetNamed | src/pages/Projects/ProjectsPage.jsx:500 | only techs named in some stack are in the set |
| ProjectsPage.TechsBounded | src/pages/Projects/ProjectsPage.jsx:500 | the distinct technologies never outnumber the stack entries |
| ProjectsPage.DemoCount | src/pages/Projects/ProjectsPage.jsx:501 | the live-demo count is at most the number of projects |
| ProjectsPage.DemoCountOne | src/pages/Projects/ProjectsPage.jsx:501 | one project counts one exactly when it has a live demo; with the split over concatenation this fixes the count on every list |
| ProjectsPage.DemoCountExtremes | src/pages/Projects/ProjectsPage.jsx:501 | the count is zero exactly when no project has a demo, and the whole list exactly when every project has one |
| ProjectsPage.RepoCount | src/pages/Projects/ProjectsPage.jsx:502 | the repository count is at most the number of projects |
| ProjectsPage.RepoCountOne | src/pages/Projects/ProjectsPage.jsx:502 | one project counts one exactly when it has a repository link |
| ProjectsPage.RepoCountExtremes | src/pages/Projects/ProjectsPage.jsx:502 | the count is zero exactly when no project has a repository link, and the whole list exactly when every project has one |
| ProjectsPage.CountsAppend | src/pages/Projects/ProjectsPage.jsx:501-502 | both filter counts over the joined lists are the sums of the counts over each list |
| ProjectsPage.Summarize | src/pages/Projects/ProjectsPage.jsx:497-502 | the total is complete plus small; "Technologies used" is the size of the set of every stack's techs, at most the stack entries; the demo and repository figures are the two filter counts over both lists, each at most the total |
| ProjectsPage.PageSummary | src/pages/Projects/ProjectsPage.jsx:94-192 | the page shows 6 complete applications, 5 small projects, 11 in total, 4 live demos and 10 repositories |
| ProjectsPage.PageTechCount | src/pages/Projects/ProjectsPage.jsx:500 | "Technologies used" reads 10 |
| ProjectsPage.StacksHaveIcons | src/pages/Projects/ProjectsPage.jsx:194-234 | every tech on the page has an icon and a colour of its own in both modes |
| ProjectsPage.ModeDependentColours | src/pages/Projects/ProjectsPage.jsx:215-234 | exactly Express, Next.js and Three.js change colour with the mode |
| ProjectsPage.BothButtons | src/pages/Projects/ProjectsPage.jsx:307-334 | Bag Elegance shows both buttons, demo first |
| Experience.StatusLabel | src/pages/Home/Experience.jsx:179-180 | `current` gives `Active`, and every other status gives `Completed` |
| Experience.ChipsCovered | src/pages/Home/Experience.jsx:220-228 | every technology chip finds its icon and a colour of its own |
| Experience.UnmappedFallsBack | src/pages/Home/Experience.jsx:131-141 | a tech that is neither in the table nor an `Object.prototype` name gets the accent colour |
| Experience.PositionLabels | src/pages/Home/Experience.jsx:85-105 | the internship reads `Completed` and the current position reads `Active` |
| Experience.InternSlug | src/pages/Home/Experience.jsx:165 | the first card's header reads `frontend-intern` |
| Skills.FiveCounts | src/pages/Home/Skills.jsx:340-344 | the five count lines exist exactly when there are at least five categories, and line i is the size of category i |
| Skills.TotalSkills | src/pages/Home/Skills.jsx:346 | the reduce returns the sum of all category sizes; it is 0 for no categories, and no single category exceeds it |
| Skills.SizesBound | src/pages/Home/Skills.jsx:346 | no category holds more skills than the total |
| Skills.SumSizesAppend | src/pages/Home/Skills.jsx:346 | the total splits over any split of the categories |
| Skills.FiveCountsSum | src/pages/Home/Skills.jsx:340-346 | the five count lines add up to the total minus whatever the categories after the fifth hold |
| Skills.PageCounts | src/pages/Home/Skills.jsx:95-148 | the page shows 3, 5, 5, 2 and 2 skills and a total of 17, so the five lines account for all of them |
| Skills.KeysUnique | src/pages/Home/Skills.jsx:240-291 | the React keys are unique: the category titles, and the skill names within each category |
| Contact.HandleChange | src/pages/Home/Contact.jsx:98-101 | only the named field changes, and the loading flag is kept |
| Contact.HandleSubmit | src/pages/Home/Contact.jsx:103-116 | submit turns loading on, keeps the form, and builds the request from the form's fields with the fixed service, template and key |
| Contact.FormSubmit | src/pages/Home/Contact.jsx:488-567 | the handler runs exactly when no field is empty and no send is in flight (the `required` inputs and the disabled button), and then sends the form |
| Contact.SendBlocksResubmit | src/pages/Home/Contact.jsx:567 | a send in flight blocks another submit; after a failure the same form can be sent again, after a success the emptied form cannot |
| Contact.FilledFormSubmits | src/pages/Home/Contact.jsx:98-116 | filling the three fields with non-empty text makes the form submittable, and the request carries exactly the typed text |
| Contact.Params | src/pages/Home/Contact.jsx:107-113 | name, e-mail and message go to `from_name`, `from_email` and `message`; the recipient's name and address are fixed |
| Contact.Settle | src/pages/Home/Contact.jsx:117-126 | loading ends either way; success resets the form to empty and shows the thank-you toast, failure keeps the form and shows the error toast |
| Contact.SubmitButton | src/pages/Home/Contact.jsx:567-590 | the button is disabled and reads `Sending...` exactly while loading; otherwise it reads `Send Message` |
| Contact.SentResets | src/pages/Home/Contact.jsx:19-20 | a successful send returns the component to its initial state |
| Contact.FailedKeeps | src/pages/Home/Contact.jsx:122-126 | a failed send gives back exactly the typed form, with loading off |
| Contact.ButtonDuringSend | src/pages/Home/Contact.jsx:567-590 | the button is disabled from submit until the outcome arrives |
| Contact.EditDuringSendLost | src/pages/Home/Contact.jsx:100-120 | an edit made while the send is in flight is lost if the send succeeds and kept if it fails |
| Contact.FilledFormRequest | src/pages/Home/Contact.jsx:98-113 | filling the three fields from the initial state sends exactly what was typed |
| Contact.ChangesCommute | src/pages/Home/Contact.jsx:98-101 | edits to different fields commute |
| Text.Lower | src/pages/Home/Hero.jsx:91 | lower-casing keeps the length, maps each letter A-Z to its lower-case letter (32 code points on), keeps every other character and keeps whitespace where it was |
| Text.Trim | src/pages/Home/Hero.jsx:90-91 | the trimmed string has no whitespace at either end, and it is empty exactly when the input is all whitespace |
| Text.TrimPadded | src/pages/Home/Hero.jsx:91 | trimming undoes any whitespace padding around a string that has no whitespace at its ends |
| Text.Slug | src/pages/Home/Projects.jsx:212 | a slug has no whitespace and no upper-case letter |
| Text.SlugWord | src/pages/Home/Projects.jsx:212 | a title without whitespace slugs to its lower-cased form |
| Text.SlugIdempotent | src/pages/Projects/ProjectsPage.jsx:258 | re-slugging a slug changes nothing |
| Text.DashSpaceRunsSplit | src/pages/Home/Experience.jsx:165 | one whitespace run between two words becomes exactly one dash |
| Text.SlugWords | src/pages/Home/Projects.jsx:212 | the slug of two words joined by whitespace is the two lower-cased words joined by one dash |

## Left out

- Timers and delays: each `setTimeout` or `await` pause is one discrete step. This covers the 50 ms typing, the 500 ms pause between boot messages, the 100 ms scroll delay and the 300 ms menu close.
- Overlapping submissions: `handleCommand` is asynchronous and has no input lock. Each submission runs to completion before the next key press.
- The resume download body (DOM link, `window.open` fallback): it is one opaque `Invoke(DownloadResume)` event.
- The e-mail service call: its answer is the `Outcome` parameter (`Sent` or `Failed`). The toast display is not modelled beyond which toast is chosen.
- The loading screen's floating-point progress bar: it is floating point and has no effect on the typer.
- Document and layout reads: `getElementById`, `offsetTop`/`offsetHeight` and `scrollY` become the `Layout` and `scrollY` parameters. The scroll into view, `window.innerWidth`, route handling and the app's loader timeout are not modelled.
- Clocks in the navigation bar and elsewhere.
- The theme context: the dark-mode flag is a parameter.
- Static markup, animation variants, Tailwind classes, descriptions, the unused contribution fields, and the icons and colours of the skill tiles.
- Unicode: whitespace and case mapping are ASCII only.
- Boot.Step: each `setMessages` updater is applied when it is called, so it reads the character index before the increment at Loader.jsx:33. If React defers an updater to the next render (batched updates, which depend on how the app's root is created; that file is not part of this model), the frame reads the index after the increment, and the first frame of a message may show one character instead of none. `Boot.Reveal`'s frame count assumes call-time application; the final messages and the end state are the same either way.
- Navigation.OnScroll: `window.scrollY` is a floating-point number (fractional under zoom); it is modelled as an integer.
- Cards.TechColor: the colour and icon tables are modelled as maps holding only their own keys. In the source, `colors[tech]` and `icons[tech]` index object literals, so an inherited `Object.prototype` name such as `toString` or `constructor` would find a prototype member instead of the accent colour or no icon. The pages only ever pass techs that are own keys of the tables (`Experience.ChipsCovered`, `ProjectsPage.StacksHaveIcons`, `HomeProjects.ProjectsCovered`), so the fallback clauses are stated for names that are not inherited ones.
- Navigation.ParseUrl: react-router's `parsePath` also splits a `?search` off the path; the model keeps it in the path, and no target the page builds carries a query string.
- Contact.HandleSubmit: the handler itself is modelled from any state; whether it runs is decided by the browser's constraint validation and the disabled button, which `Contact.FormSubmit` models for the empty-field and in-flight cases only. The address format that `type="email"` enforces is not modelled, so a non-empty malformed address counts as submittable.
- Hero.LineKinds: it does not state that none of the seven commands' own output lines starts with `$`. Their longer string literals are more than the verifier unfolds character by character.

## Findings

| source | as written | input that shows it | evidently intended | confidence | as-written member | corrected member |
|---|---|---|---|---|---|---|
| src/pages/Home/Hero.jsx:95-97 | `commands[command]` also finds the properties a plain object inherits. For `constructor` the lookup is truthy, and `for (const line of cmd.output)` then throws on the missing `output`, so the echo stays and no message follows | the input `constructor` (also `__proto__`) | only the seven own keys are commands; any other key gets `bash: <key>: command not found` | not executed | Hero.InheritedKeyFinding | Terminal.SubmitOutcome |
