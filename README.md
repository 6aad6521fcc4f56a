# 0Unveiled landing page: a verified model of its interactive components

The 0Unveiled landing page is a Next.js site that shows a developer's skills as
a live portfolio. This project models, in Dafny, the state and logic of its
ten interactive pieces:

- the Explore page's profile search and filters;
- the recruiter demo's candidate filters, average score and role form;
- the chat list, with its search, initials, type colours and counters;
- the new-chat contact picker;
- the testimonial galaxy's skill filter;
- the navbar sign-up dialog and the sign-up call to action, which share one e-mail pattern;
- the live leaderboard's score updates;
- the "how it works" carousel and its step demos;
- the hero animation.

Pure computations (filters, the e-mail pattern, initials, colours, the sort
behind the leaderboard) are Dafny functions. The lemmas beside them state what
the page promises: a filter keeps exactly what matches, in order; the defaults
show everything; tightening a filter never adds a row; the leaderboard tick is
a stable, re-ranked permutation.

Component state is a class with one field per `useState`. Each event handler
is a method whose `ensures` gives the new state. Timers and awaited promises
become explicit event methods: `FinishSignUp`, `CompleteSubmit`,
`ConfirmationTimeout`, and the Hero's timer queue with its clock; the step
demos' counting loops run to completion in one method. Random draws become
parameters.

Files:

- `wrappers.dfy`: Option, JavaScript's `null` next to a value.
- `text.dfy`: ASCII `toLowerCase`/`toUpperCase`, `includes`, `trim`, `split`/`join`, first-letter initials, plurals.
- `seqs.dfy`: `filter`, `slice(0, n)`, `Array.from(new Set(..))`.
- `email.dfy`: the e-mail pattern `^[^\s@]+@[^\s@]+\.[^\s@]+$`.
- `explore.dfy`, `recruitment.dfy`, `chat_list.dfy`, `new_chat.dfy`, `trust_galaxy.dfy`, `navbar.dfy`, `sign_up_cta.dfy`, `leaderboard.dfy`, `how_it_works.dfy`, `hero.dfy`: one module per component.

## Model

| member | source | states |
|---|---|---|
| Seqs.Filter | src/components/ExploreContent.tsx:74 | `filter` keeps exactly the elements satisfying the predicate and is never longer than its input |
| Seqs.FilterIsSubsequence | src/components/ExploreContent.tsx:74 | a filtered list keeps the original order of what it keeps |
| Seqs.CountWhere | src/app/chats/page.tsx:296-298 | `filter(p).length` is zero exactly when nothing satisfies `p` and the full length exactly when everything does |
| Seqs.Take | src/app/chats/new/page.tsx:117 | `slice(0, n)` is the first `n` elements, or all when there are fewer |
| Seqs.Dedup | src/components/TrustGalaxy.tsx:291 | `Array.from(new Set(s))` has no repetitions and the same members as `s` |
| Seqs.DedupFirstOccurrenceOrder | src/components/TrustGalaxy.tsx:291 | the distinct values appear in the order of their first occurrences in `s` |
| Seqs.DedupOfNoDup | src/components/TrustGalaxy.tsx:291 | a list without repetitions is unchanged by the set round trip |
| Text.Trim | src/app/chats/page.tsx:225 | `trim()` is empty exactly for a blank string; otherwise it starts and ends with a non-space character |
| Text.TrimChangesPadded | src/components/SignUpCTA.tsx:26 | a string with leading or trailing whitespace is changed by `trim()` |
| Text.JoinSplit | src/app/chats/page.tsx:157-160 | joining the pieces of `split(" ")` with a space gives the name back |
| Text.SplitJoin | src/app/chats/page.tsx:157-160 | splitting space-joined space-free words gives the words back |
| Text.WordInitialsOfWords | src/app/chats/new/page.tsx:193 | a name of non-empty single-spaced words yields one initial per word, in order |
| Text.EmptyWordIgnored | src/app/chats/new/page.tsx:193 | an empty word from a doubled, leading or trailing space adds no initial, since `undefined` joins as nothing |
| Text.Plural | src/app/chats/new/page.tsx:395 | the label is the bare word exactly when the count is one, and otherwise the word plus `s` |
| Text.Decimal | src/app/chats/new/page.tsx:391 | a count interpolated into a template: a non-empty string of decimal digits with no leading zero |
| Text.DecimalRoundTrip | src/app/chats/new/page.tsx:391 | reading the digits of an interpolated count back gives the count |
| Text.DecimalShown | src/app/chats/new/page.tsx:391 | a count interpolated between two fixed pieces of text can be read back from between them |
| Text.CountedWord | src/app/chats/new/page.tsx:395 | a count followed by a word, plural unless the count is one, shows the count and reads "1 word" exactly for one |
| Email.ValidateEmail | src/components/Navbar.tsx:42-45 | the pattern `^[^\s@]+@[^\s@]+\.[^\s@]+$`: a whitespace- and `@`-free local part, an `@`, and a domain split by some dot into two non-empty whitespace- and `@`-free parts |
| Email.ValidateEmailIff | src/components/Navbar.tsx:42-45 | the pattern matches exactly the addresses with no whitespace, exactly one `@`, a non-empty local part, and a domain with a dot that has text on both sides |
| Email.PatternIsWellFormed | src/components/SignUpCTA.tsx:18-21 | any match of the pattern is such an address |
| Email.WellFormedMatchesPattern | src/components/SignUpCTA.tsx:18-21 | any such address matches the pattern |
| Email.ValidShape | src/components/Navbar.tsx:42-45 | a valid address has at least five characters, is not blank, and neither starts nor ends with whitespace |
| Explore.SearchMatch | src/components/ExploreContent.tsx:76-81 | an empty search term passes; otherwise the lowercased term must occur in the lowercased name, college, location, role or one of the skills |
| Explore.CategoryKeyword | src/components/ExploreContent.tsx:86-99 | the switch's keyword tests on one lowercased skill and the lowercased role, for each of the eleven categories, and false for any other |
| Explore.SkillMatch | src/components/ExploreContent.tsx:84-100 | category "all" passes; otherwise some skill passes the category's keyword test, so a profile without skills never passes |
| Explore.FilterProfiles | src/components/ExploreContent.tsx:73-111 | a profile is listed exactly when it passes the search, category, location and college tests |
| Explore.FilteredIsSubsequence | src/components/ExploreContent.tsx:73-74 | the listed profiles keep their original order |
| Explore.DefaultsShowEverything | src/components/ExploreContent.tsx:47-50 | with the initial filters every profile is listed |
| Explore.MatchesIsConjunction | src/components/ExploreContent.tsx:76-110 | a profile matches exactly when each of the four tests holds, each test passing when its filter is unset |
| Explore.TighteningNeverAdds | src/components/ExploreContent.tsx:110 | setting any one filter only removes profiles from the list |
| Explore.NoSkillsNoCategory | src/components/ExploreContent.tsx:84-85 | a profile without skills never passes a category other than "all", even when its role would match |
| Explore.UnknownCategoryHidesAll | src/components/ExploreContent.tsx:84-100 | a category the switch does not know hides every profile |
| Explore.PickersAreExactMatch | src/components/ExploreContent.tsx:103-108 | the location and college pickers require equality, not substring match |
| Explore.StrLtIrreflexive | src/components/ExploreContent.tsx:56 | the `sort()` order is irreflexive |
| Explore.StrLtTransitive | src/components/ExploreContent.tsx:56 | the `sort()` order is transitive |
| Explore.StrLtTotal | src/components/ExploreContent.tsx:56 | the `sort()` order is total on distinct strings |
| Explore.Insert | src/components/ExploreContent.tsx:56 | one insertion step of the sort adds exactly its element |
| Explore.InsertKeepsSorted | src/components/ExploreContent.tsx:56 | inserting a new string into a strictly sorted list keeps it strictly sorted |
| Explore.SortStrings | src/components/ExploreContent.tsx:56 | `sort()` is a permutation, strictly sorted when the input has no repetitions |
| Explore.UniqueSorted | src/components/ExploreContent.tsx:55-61 | the distinct values, sorted, without repetitions, with the same members |
| Explore.UniqueLocations | src/components/ExploreContent.tsx:55-57 | the location picker lists every profile's location once, in sorted order, and nothing else |
| Explore.UniqueColleges | src/components/ExploreContent.tsx:59-61 | the college picker lists every profile's college once, in sorted order, and nothing else |
| Explore.ExploreView.constructor | src/components/ExploreContent.tsx:47-50 | starts with an empty search, category "all", no location and no college |
| Explore.ExploreView.ShowClearButton | src/components/ExploreContent.tsx:241 | the Clear Filters button shows exactly when some filter differs from its default |
| Explore.ExploreView.SetSearchTerm | src/components/ExploreContent.tsx:147 | changes the search term only |
| Explore.ExploreView.SetSkillFilter | src/components/ExploreContent.tsx:166 | changes the category only |
| Explore.ExploreView.SetLocationFilter | src/components/ExploreContent.tsx:187 | changes the location only |
| Explore.ExploreView.SetCollegeFilter | src/components/ExploreContent.tsx:201 | changes the college only |
| Explore.ExploreView.ClearFilters | src/components/ExploreContent.tsx:114-119 | restores the defaults, so every profile is listed and the Clear button hides |
| Recruitment.FilterCandidates | src/components/RecruitmentToolsDemo.tsx:108-116 | a candidate is listed exactly when it has one ticked skill (or none is ticked), meets the minimum score and is in the chosen location (or "all") |
| Recruitment.FilteredCandidatesSubsequence | src/components/RecruitmentToolsDemo.tsx:108 | the listed candidates keep their order |
| Recruitment.NoSkillsNoConstraint | src/components/RecruitmentToolsDemo.tsx:109 | with no skill ticked and every score high enough, every candidate is listed |
| Recruitment.TickedSkillRequired | src/components/RecruitmentToolsDemo.tsx:109-111 | once a skill is ticked, a candidate is listed exactly when it shares a ticked skill and meets the score and location tests |
| Recruitment.ToggleSkill | src/components/RecruitmentToolsDemo.tsx:118-124 | toggling flips the skill's membership and leaves every other skill as it was; an unticked skill is appended at the end, a ticked one is removed with the others kept in order; the list stays free of repetitions |
| Recruitment.ToggleTwiceRestores | src/components/RecruitmentToolsDemo.tsx:118-124 | ticking and unticking an unticked skill restores the list |
| Recruitment.AverageScore | src/components/RecruitmentToolsDemo.tsx:514-516 | 0 for an empty list; otherwise the average rounded half up, within half a point of the true mean |
| Recruitment.SumBounds | src/components/RecruitmentToolsDemo.tsx:515 | the sum of `n` scores in `[lo, hi]` lies in `[n*lo, n*hi]` |
| Recruitment.AverageBetween | src/components/RecruitmentToolsDemo.tsx:514-516 | the displayed average lies between the lowest and highest possible score |
| Recruitment.RecruiterDemo.constructor | src/components/RecruitmentToolsDemo.tsx:94-101 | no skill ticked, minimum 70, location "all", form and confirmation hidden, empty role with minimum 80 |
| Recruitment.RecruiterDemo.HandleSkillToggle | src/components/RecruitmentToolsDemo.tsx:118-124 | the ticked skills become their toggle, still free of repetitions |
| Recruitment.RecruiterDemo.SetMinScore | src/components/RecruitmentToolsDemo.tsx:378 | sets the minimum score |
| Recruitment.RecruiterDemo.SetLocation | src/components/RecruitmentToolsDemo.tsx:389 | sets the location |
| Recruitment.RecruiterDemo.SetShowRoleForm | src/components/RecruitmentToolsDemo.tsx:420 | opens or closes the role form |
| Recruitment.RecruiterDemo.EditRole | src/components/RecruitmentToolsDemo.tsx:435-458 | replaces the role being drafted |
| Recruitment.RecruiterDemo.HandleRoleSubmit | src/components/RecruitmentToolsDemo.tsx:177-190 | a blank title changes nothing; otherwise the form closes, the confirmation shows and the draft resets |
| Recruitment.RecruiterDemo.ConfirmationTimeout | src/components/RecruitmentToolsDemo.tsx:189 | the confirmation hides three seconds later |
| ChatList.FilterChats | src/app/chats/page.tsx:224-231 | a blank query lists every chat; otherwise a chat is listed exactly when its name or last message contains the query, ignoring case |
| ChatList.FilteredChatsSubsequence | src/app/chats/page.tsx:224-231 | the listed chats keep their order |
| ChatList.LeadingSpaceTakesPart | src/app/chats/page.tsx:225-229 | the query is trimmed only to test blankness, so a leading space must itself be found in the name or message |
| ChatList.Initials | src/app/chats/page.tsx:156-163 | at most two characters |
| ChatList.InitialsOfWords | src/app/chats/page.tsx:156-163 | for a name of single-spaced words, the upper-cased first letters of its first two words |
| ChatList.ShowsUnreadBadge | src/app/chats/page.tsx:200 | the unread badge shows exactly for a positive unread count |
| ChatList.TypeColor | src/app/chats/page.tsx:165-173 | gray exactly for a type outside the four known ones |
| ChatList.TypeColorsDistinct | src/app/chats/page.tsx:165-173 | the four known types get four different colours |
| ChatList.CountsBounded | src/app/chats/page.tsx:294-298 | the unread and online counts never exceed the number listed; unread is zero exactly when no listed chat has unread messages; online equals the number listed exactly when all are online |
| NewChat.VisibleContacts | src/app/chats/new/page.tsx:132-148 | a contact is listed exactly when it has the chosen type (or "all") and its name, role or company contains the query |
| NewChat.VisibleSubsequence | src/app/chats/new/page.tsx:132-148 | the listed contacts keep their order |
| NewChat.DefaultsListEverything | src/app/chats/new/page.tsx:121-124 | with no query and type "all" every contact is listed |
| NewChat.StepsAreConjunction | src/app/chats/new/page.tsx:133-145 | the effect's step-by-step filtering equals filtering by the conjunction, in all four branch combinations |
| NewChat.StatusColor | src/app/chats/new/page.tsx:150-156 | green exactly for online, yellow exactly for busy, gray for every other status |
| NewChat.TypeBadgeColor | src/app/chats/new/page.tsx:168-175 | the gray badge exactly for an unknown type |
| NewChat.RecentContacts | src/app/chats/new/page.tsx:117 | the first four contacts, or all of them when there are fewer |
| NewChat.ContactPicker.constructor | src/app/chats/new/page.tsx:121-124 | no query, type "all", every contact listed |
| NewChat.ContactPicker.ApplyFilters | src/app/chats/new/page.tsx:132-148 | the listed contacts become the visible contacts for the current query and type |
| NewChat.ContactPicker.SetSearchQuery | src/app/chats/new/page.tsx:335 | the query changes, the type stays, and the list follows |
| NewChat.ContactPicker.SetSelectedType | src/app/chats/new/page.tsx:340 | the type changes, the query stays, and the list follows |
| NewChat.ContactPicker.ClearFilters | src/app/chats/new/page.tsx:415-418 | every contact is listed again and the recent strip shows |
| NewChat.ContactPicker.ShowRecent | src/app/chats/new/page.tsx:376 | the recent-contacts strip shows only with an empty query and type "all" |
| NewChat.ContactPicker.Heading | src/app/chats/new/page.tsx:390-392 | "Suggested Contacts" exactly when there is no query; while searching, "Search Results" followed by the listed count in decimal, in parentheses |
| NewChat.ContactPicker.CountLabel | src/app/chats/new/page.tsx:393-397 | absent exactly when no contact is listed; otherwise the listed count in decimal, a space, and "contact" made plural unless the count is one; it reads "1 contact" exactly when one contact is listed |
| TrustGalaxy.FlatSkills | src/components/TrustGalaxy.tsx:291 | `flatMap` holds exactly the skills of some testimonial |
| TrustGalaxy.AllSkills | src/components/TrustGalaxy.tsx:291 | every testimonial skill once, and nothing else |
| TrustGalaxy.AllSkillsFirstOccurrence | src/components/TrustGalaxy.tsx:291 | skills appear in the order of their first mention |
| TrustGalaxy.FilterBarSkills | src/components/TrustGalaxy.tsx:323 | the filter bar shows a prefix of at most eight distinct skills, all of them when there are at most eight |
| TrustGalaxy.FilterTestimonials | src/components/TrustGalaxy.tsx:292-294 | with no skill (or an empty one) selected every testimonial shows; otherwise exactly those listing the skill |
| TrustGalaxy.FilteredTestimonialsSubsequence | src/components/TrustGalaxy.tsx:292-294 | the shown testimonials keep their order |
| TrustGalaxy.NextSelection | src/components/TrustGalaxy.tsx:296-298 | clicking the selected skill clears the selection; clicking any other skill selects it |
| TrustGalaxy.TwoClicks | src/components/TrustGalaxy.tsx:296-298 | clicking the selected skill twice restores it; clicking another skill twice clears the selection |
| TrustGalaxy.ShouldHighlight | src/components/TrustGalaxy.tsx:150 | a card is highlighted exactly when a skill is selected and the card lists it |
| TrustGalaxy.IsDimmed | src/components/TrustGalaxy.tsx:173 | a card is dimmed exactly when a skill is selected and the card is not highlighted |
| TrustGalaxy.HighlightMatchesFilter | src/components/TrustGalaxy.tsx:172-173 | with a skill selected a card is highlighted exactly when it passes the filter and dimmed exactly when it does not; with none, neither |
| TrustGalaxy.OrbitRadius | src/components/TrustGalaxy.tsx:130 | the card at `index` orbits at radius 120 + 30 index |
| TrustGalaxy.OrbitDuration | src/components/TrustGalaxy.tsx:131 | the card at `index` takes 20 + 5 index seconds per revolution |
| TrustGalaxy.OrbitsGrow | src/components/TrustGalaxy.tsx:130-131 | later orbits are wider and slower; the radius grows six pixels per second of period |
| TrustGalaxy.ExpertLabel | src/components/TrustGalaxy.tsx:362 | reads "expert" exactly when one testimonial is shown |
| TrustGalaxy.SkillFilter.constructor | src/components/TrustGalaxy.tsx:288 | starts with no skill selected |
| TrustGalaxy.SkillFilter.HandleSkillClick | src/components/TrustGalaxy.tsx:296-298 | the selection becomes the next selection; it is cleared exactly when the clicked skill was selected |
| TrustGalaxy.SkillFilter.SelectAll | src/components/TrustGalaxy.tsx:317 | the "All" button clears the selection |
| Navbar.ValidatePassword | src/components/Navbar.tsx:47-49 | a password is valid exactly when it has at least eight characters |
| Navbar.EmailError | src/components/Navbar.tsx:56-60 | "required" exactly for an empty e-mail, "invalid" exactly for a non-empty one the pattern rejects, none exactly for a valid one |
| Navbar.PasswordError | src/components/Navbar.tsx:62-66 | "required" exactly for an empty password, "too short" exactly for one to seven characters, none exactly for eight or more |
| Navbar.WhitespaceEmailIsInvalid | src/components/Navbar.tsx:56-60 | an all-whitespace e-mail is not "required" but "invalid", because the dialog does not trim |
| Navbar.SubmitProceedsIff | src/components/Navbar.tsx:68-70 | the form proceeds exactly when both the e-mail and the password are valid |
| Navbar.SignUpDialog.constructor | src/components/Navbar.tsx:25-29 | closed, empty fields, no errors, not loading |
| Navbar.SignUpDialog.SetOpen | src/components/Navbar.tsx:119 | opens or closes the dialog |
| Navbar.SignUpDialog.SetEmail | src/components/Navbar.tsx:143 | changes the e-mail only |
| Navbar.SignUpDialog.SetPassword | src/components/Navbar.tsx:157 | changes the password only |
| Navbar.SignUpDialog.HandleSignUpSubmit | src/components/Navbar.tsx:51-72 | shows both fields' errors at once; starts loading exactly when both are valid and changes nothing else otherwise |
| Navbar.SignUpDialog.FinishSignUp | src/components/Navbar.tsx:75-80 | after the simulated call: loading stops, the dialog closes, fields and errors reset |
| SignUpCta.SubmitError | src/components/SignUpCTA.tsx:26-37 | "required" exactly for a blank e-mail, "invalid" exactly for a non-blank one the pattern rejects, none exactly for a valid one |
| SignUpCta.PaddedEmailRejected | src/components/SignUpCTA.tsx:26-34 | an e-mail with surrounding spaces passes the blank test but fails the pattern, since only the blank test trims |
| SignUpCta.FormsAgreeExceptOnBlank | src/components/SignUpCTA.tsx:26-34 | the two sign-up forms give the same error except on a non-empty all-whitespace e-mail, where this form says "required" and the dialog says "invalid" |
| SignUpCta.SignUpForm.constructor | src/components/SignUpCTA.tsx:14-16 | empty e-mail, not submitting, no error |
| SignUpCta.SignUpForm.OnEmailChange | src/components/SignUpCTA.tsx:105-108 | typing sets the e-mail and clears the error |
| SignUpCta.SignUpForm.HandleEmailSubmit | src/components/SignUpCTA.tsx:23-37 | the error becomes the submit error; submission starts exactly when the e-mail is valid |
| SignUpCta.SignUpForm.CompleteSubmit | src/components/SignUpCTA.tsx:39-54 | submitting ends; on success the e-mail is cleared |
| Leaderboard.Bump | src/components/LeaderboardTeaser.tsx:245-247 | each score moves by `floor(random*10) - 3`, between -3 and +6, and nothing else changes |
| Leaderboard.InsertByScore | src/components/LeaderboardTeaser.tsx:248 | one insertion step of the sort adds exactly its entry |
| Leaderboard.InsertKeepsSorted | src/components/LeaderboardTeaser.tsx:248 | inserting into a list sorted by descending score keeps it sorted |
| Leaderboard.SortByScore | src/components/LeaderboardTeaser.tsx:248 | the sort is a permutation into descending score order |
| Leaderboard.InsertKeepsTies | src/components/LeaderboardTeaser.tsx:248 | an insertion puts its entry ahead of the entries with equal score |
| Leaderboard.SortIsStable | src/components/LeaderboardTeaser.tsx:248 | entries with equal scores keep their previous order |
| Leaderboard.Rerank | src/components/LeaderboardTeaser.tsx:248-251 | the entry at position `i` gets rank `i + 1`, and nothing else changes |
| Leaderboard.Tick | src/components/LeaderboardTeaser.tsx:244-252 | an update keeps the number of entries |
| Leaderboard.IdsOfSort | src/components/LeaderboardTeaser.tsx:248 | the sort keeps the multiset of player ids |
| Leaderboard.TickProperties | src/components/LeaderboardTeaser.tsx:244-252 | after an update the same players are listed, sorted by descending score, ranked 1 to n by position, each the bumped copy of a previous entry |
| Leaderboard.IsTopThree | src/components/LeaderboardTeaser.tsx:381-390 | the ring and crown styling apply exactly to ranks 1 to 3 |
| Leaderboard.TopThreeAfterTick | src/components/LeaderboardTeaser.tsx:381-390 | after an update exactly the first three rows get the top-three styling |
| Leaderboard.FilteredData | src/components/LeaderboardTeaser.tsx:283-286 | the time filter keeps every entry, whichever filter is chosen |
| Leaderboard.ExtendedData | src/components/LeaderboardTeaser.tsx:289 | the scrolling list is three copies of the filtered list, row `i` being row `i mod n` |
| Leaderboard.LiveLeaderboard.constructor | src/components/LeaderboardTeaser.tsx:228-232 | playing, time filter "all", no entry selected, the mock data |
| Leaderboard.LiveLeaderboard.OnInterval | src/components/LeaderboardTeaser.tsx:244-252 | every five seconds the data becomes the update of the previous data, sorted and of the same size |
| Leaderboard.LiveLeaderboard.HandleKeyDown | src/components/LeaderboardTeaser.tsx:276-281 | Enter or Space selects the entry; other keys change nothing |
| Leaderboard.LiveLeaderboard.HandleEntryClick | src/components/LeaderboardTeaser.tsx:272-274 | a click selects the entry |
| Leaderboard.LiveLeaderboard.CloseDetail | src/components/LeaderboardTeaser.tsx:423 | closing the detail clears the selection |
| Leaderboard.LiveLeaderboard.SetTimeFilter | src/components/LeaderboardTeaser.tsx:313 | sets the time filter |
| Leaderboard.LiveLeaderboard.TogglePlaying | src/components/LeaderboardTeaser.tsx:324 | flips play and pause |
| HowItWorks.KeyStep | src/components/HowItWorksScroller.tsx:309-319 | ArrowLeft moves back one step and stops at the first; ArrowRight moves on and stops at the last; other keys do nothing; the step stays in range |
| HowItWorks.PressAllStaysInRange | src/components/HowItWorksScroller.tsx:309-319 | no sequence of key presses leaves the carousel |
| HowItWorks.RepeatedArrows | src/components/HowItWorksScroller.tsx:313-317 | `n` presses of one arrow move `n` steps, clamped at the end |
| HowItWorks.Scroller.constructor | src/components/HowItWorksScroller.tsx:266 | the carousel starts on the first step |
| HowItWorks.Scroller.HandleKeyDown | src/components/HowItWorksScroller.tsx:309-319 | the active step becomes the key step of the previous one |
| HowItWorks.Scroller.GoToStep | src/components/HowItWorksScroller.tsx:406-407 | a progress dot or a card selects that step |
| HowItWorks.Scroller.PrevDisabled | src/components/HowItWorksScroller.tsx:359 | the previous button is disabled exactly on the first step |
| HowItWorks.Scroller.NextDisabled | src/components/HowItWorksScroller.tsx:370 | the next button is disabled exactly on the last step |
| HowItWorks.Scroller.IsCardActive | src/components/HowItWorksScroller.tsx:390 | a card is active exactly when its index is the active step |
| HowItWorks.Scroller.ExactlyOneActive | src/components/HowItWorksScroller.tsx:359-391 | exactly one card is active; the previous and next buttons are disabled exactly when their arrow key would do nothing |
| HowItWorks.Ramp | src/components/HowItWorksScroller.tsx:76 | the counter values `0, step, 2*step, ...` |
| HowItWorks.RampFacts | src/components/HowItWorksScroller.tsx:76-79 | a counter strictly increases and ends at its largest value |
| HowItWorks.PerfectMatchOnlyAtEnd | src/components/HowItWorksScroller.tsx:194 | of the recruit counter's values only the last, 95, shows "Perfect match found!" |
| HowItWorks.UnshiftStep | src/components/HowItWorksScroller.tsx:91-94 | the leaderboard demo as written: the reader's row on top of the first two previous rows |
| HowItWorks.RerunsFloodWithYou | src/components/HowItWorksScroller.tsx:91-108 | as written, the step is not idempotent; the effect depends on the rows it sets, so three runs leave three rows of "You" |
| HowItWorks.LeaderboardDemoStep | src/components/HowItWorksScroller.tsx:91-94 | the intended step: the reader's row on top, and no other row is the reader's |
| HowItWorks.LeaderboardDemoStepIdempotent | src/components/HowItWorksScroller.tsx:91-94 | the intended step agrees with the written one on the initial rows, and running it again changes nothing |
| HowItWorks.StepCard.constructor | src/components/HowItWorksScroller.tsx:34-42 | the demo is inactive, counters at zero, the three sample rows |
| HowItWorks.StepCard.SyncDemoActive | src/components/HowItWorksScroller.tsx:48-66 | the demo runs exactly while the card is active and on screen |
| HowItWorks.StepCard.HandleDrop | src/components/HowItWorksScroller.tsx:110-115 | a drop starts the demo on the upload card and does nothing elsewhere |
| HowItWorks.StepCard.RunUploadDemo | src/components/HowItWorksScroller.tsx:74-80 | the progress shows 0, 10, ..., 100 and ends at 100 |
| HowItWorks.StepCard.RunScanDemo | src/components/HowItWorksScroller.tsx:83-89 | the score shows 0, 3, ..., 87 and ends at 87 |
| HowItWorks.StepCard.RunRecruitDemo | src/components/HowItWorksScroller.tsx:97-103 | the match shows 0, 5, ..., 95, ending at 95, in the perfect-match band |
| HowItWorks.StepCard.RunLeaderboardDemo | src/components/HowItWorksScroller.tsx:91-94 | the rows become the intended leaderboard step of the previous rows |
| Hero.VisibilityByStage | src/components/Hero.tsx:122-351 | tiles show in the tiles and scanning phases, the profile card from transform on, badges and headline only when complete; tiles and card never show together |
| Hero.TileTarget | src/components/Hero.tsx:237-238 | tile `i` lands at x = 160 + 40 (i mod 3 - 1), y = 200 + 60 (floor(i / 3) - 1) |
| Hero.TileGrid | src/components/Hero.tsx:237-238 | the six tiles land on six different points of a three-by-two grid |
| Hero.Earliest | src/components/Hero.tsx:54-59 | the timer that fires next is due no later than any other, and is the first scheduled among equals |
| Hero.EarliestIsFront | src/components/Hero.tsx:54-59 | when the first pending timer is due no later than the others, it fires next |
| Hero.HeroAnimation.constructor | src/components/Hero.tsx:39-43 | not playing, idle, score panel hidden, no pending timers |
| Hero.HeroAnimation.Mount | src/components/Hero.tsx:69-76 | with motion, the start is scheduled one second later; with reduced motion, the hero jumps to complete |
| Hero.HeroAnimation.Start | src/components/Hero.tsx:46-61 | with reduced motion, jump to complete; otherwise play from tiles and schedule scanning, transform and complete at 1.5, 3 and 4.5 seconds |
| Hero.HeroAnimation.Reset | src/components/Hero.tsx:63-67 | stops, returns to idle and hides the score panel, leaving pending timers in place |
| Hero.HeroAnimation.ControlClick | src/components/Hero.tsx:97-101 | the button resets while playing, keeping the pending timers; otherwise it starts from the tiles, keeps the score panel as it was, and schedules scanning, transform and complete 1.5, 3 and 4.5 seconds ahead; no timer is overdue before or after |
| Hero.HeroAnimation.ScoreClick | src/components/Hero.tsx:86-88 | toggles the score panel |
| Hero.HeroAnimation.FireNext | src/components/Hero.tsx:46-76 | the clock moves forward to the earliest timer, which leaves the queue; a phase timer sets its phase, complete also stopping play; the mount's start timer runs `startAnimation`, which with motion plays from the tiles and queues the three phase timers, and with reduced motion jumps to complete |
| Hero.HeroAnimation.FireFront | src/components/Hero.tsx:54-59 | the same, for a queue whose front timer is the earliest |
| Hero.HeroAnimation.PlayThrough | src/components/Hero.tsx:46-61 | a start runs through tiles, scanning, transform and complete in order, and ends 4.5 seconds later, stopped, with no timer left |
| Hero.HeroAnimation.ResetDuringPlay | src/components/Hero.tsx:54-67 | a reset right after a start does not cancel the timers: the next one moves the idle hero on to scanning |

## Left out

- Floating point: `Math.round(sum / n)` is computed exactly on integers (`(2*sum + n) div 2n`); the double-precision division is not modelled.
- Unicode: `toLowerCase`/`toUpperCase` act on ASCII letters only, and `\s` and `trim()` recognise the six ASCII whitespace characters, not the Unicode spaces JavaScript also strips.
- Text.FirstChars and Seqs.Take: a string is a sequence of characters, whereas `word[0]`, `slice(0, 2)` and `.length` count UTF-16 code units, so an initial outside the Basic Multilingual Plane (half a surrogate pair in JavaScript) is one whole character here.
- Explore.SortStrings: orders by character code, as `sort()` does; surrogate pairs are not modelled.
- Timers and awaited promises in the forms are explicit event methods. The 1000 ms sign-up delays and the 3000 ms confirmation carry no clock. The hero keeps a clock because its timers race its reset.
- HowItWorks.StepCard.RunUploadDemo, HowItWorks.StepCard.RunScanDemo and HowItWorks.StepCard.RunRecruitDemo: each `runDemo` loop, with its 50/30/40 ms `await`s, runs as one uninterrupted method. A second run started by a drop or a re-activation while the first is still pausing, so that the two loops interleave writes to the same counter, is not modelled; the contracts give the counter's values for one run on its own.
- The `clearTimeout`/`clearInterval` cleanups on unmount are not modelled; the model never unmounts a component.
- React's render timing is not modelled. A setter and the effect it triggers are one method: `NewChat.ContactPicker.SetSearchQuery` re-filters at once, and `HowItWorks.StepCard.SyncDemoActive` stands for the activation effect.
- The recruiter demo's scanner walk, which moves a highlight over the candidate grid with the magnifier, is animation only and is not modelled.
- The carousel's scroll-position tracking, which sets the active step from the scroll offset, depends on layout widths and is not modelled. Only keys, dots and card activation are.
- The navbar's scroll listener and the mobile menu sheet are not modelled.
- `AnimatedScore`, the leaderboard's speed setting, hover pause and scroll animation are presentation. `isPlaying` only drives that animation, so the five-second score interval runs whether or not the board is playing.
- The leaderboard's "takes the lead" toast, which fires with probability 0.1, is not modelled.
- Toasts, the router and JSX icons (`getTypeIcon`) have no state to model.
- The orbit badges' cosine/sine placement and the hero tiles' random start positions are not modelled; only the orbit formulas and the tile grid are.
- The chat list's `isLoading` is never set to true, so its loading branch is not modelled. The contact picker's 500 ms loading skeleton is not modelled either.
- SignUpCta.SignUpForm.CompleteSubmit: the failure path is kept as a parameter, although the simulated call never rejects.
- Hero.HeroAnimation.ControlClick: requires motion, because the button is disabled under reduced motion.

## Findings

| source | as written | input that shows it | evidently intended | confidence | as-written member | corrected member |
|---|---|---|---|---|---|---|
| src/components/HowItWorksScroller.tsx:91-108 | the leaderboard demo puts a new array into `leaderboardItems`, which is in the effect's own dependency list, so the effect runs again and unshifts "You" each time | the initial rows Alex Chen 94, Sarah Kim 92, Jordan Lee 89, with the leaderboard card active and in view: after three runs the rows are You, You, You | a single "You 95" row on top of the two best other rows, stable across re-runs | not executed | HowItWorks.RerunsFloodWithYou | HowItWorks.LeaderboardDemoStepIdempotent |
