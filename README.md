# Wisecrew site logic in Dafny

This project models the behaviour of the Wisecrew website, a React single-page site for an IT company. The site offers internships, jobs, courses, products and research support. Most of it is presentation. The model covers the parts that decide something:

- **Application intake.** The four-step application dialog (Personal, Education, Review, Submitted) has per-step validation, an error map, an id generator of the form `WISE-<PREFIX>-<YYYYMMDD>-<NNNN>` and a browser store entry `wisecrew_apps`. Each new application is put in front of that list. The "My Applications" dialog reads the list back.
- **Page shell.** The view switch falls back to the home layout. The apply dialog opens with a role and a category. The theme flips. The navigation bar tells `#anchor` targets apart from view names and closes its menus after every click.
- **Catalogue lists.** These are:
  - the internship filter (five ways);
  - the careers tag filter with each card's badge row and its one expandable panel;
  - the product category buttons ("All" plus the distinct categories in first-appearance order) and the category filter, on the home page and on the products page;
  - the apply section's role picker;
  - the academy's course lookup with a fallback entry;
  - the workshop date labels.
- **Chat windows.** There are three. Each keeps a message list that only grows, opens with a greeting, and ignores blank input. The product assistant and the research assistant choose replies by rules that are case-insensitive, match substrings and let the first match win. The site assistant does the same when no API key is set.
- **Index state.** The awards and testimonial carousels move their index modulo the number of slides. The FAQ accordion keeps at most one answer open.

Each component that keeps state is a `class` whose fields are that component's state. Each handler is a method with a `modifies` clause. Its postcondition gives the new value of every field of its component, and of every field of the application state it may reach; so do the methods that chain handlers into a scenario. The pure computations (filters, validation, the id format, reply routing, label cutting) are functions, and lemmas prove their properties.

The clock, the random draw, the page's element ids, the scroll position and the language-model service's answer are all parameters. Timers are explicit step methods.

The files are:

- `wrappers.dfy`, `seqs.dfy`, `text.dfy`: `Option`, sequence helpers and the JavaScript string operations used. The sequence helpers cover filter, distinct-in-order, subsequence, take, map and counting flags. The string operations are `trim`, ASCII `toLowerCase`, `includes`, `split`, `replace` and decimal digits.
- `types.dfy`, `constants.dfy`: the records of `types.ts` and the catalogue data of `constants.tsx`.
- One file for each component, as listed in the table below.

## Model

| member | source | states |
|---|---|---|
| Text.Trim | components/ApplicationModal.tsx:57 | `trim` never lengthens a string, and what it returns neither starts nor ends with white space |
| Text.TrimFrames | components/ApplicationModal.tsx:57 | what `trim` returns is a slice of the input with only white space before and after it |
| Text.TrimEmptyIffBlank | components/WisecrewBot.tsx:55 | a string trims to nothing iff it is all white space |
| Text.ToLower | components/views/ProductsView.tsx:262 | lower-casing keeps the length and maps each character on its own |
| Text.ToLowerFacts | components/views/ProductsView.tsx:262 | the result is lower case, lower-case text is unchanged, and lower-casing twice equals lower-casing once |
| Text.Contains | components/views/ProductsView.tsx:263 | `includes` is true iff the pattern occurs at some offset |
| Text.Split | components/Workshops.tsx:30 | `split` gives at least one piece, and no piece contains the separator |
| Text.JoinSplit | components/Workshops.tsx:30 | joining the pieces with the separator gives back the string |
| Text.DecimalRoundTrip | components/ApplicationModal.tsx:102 | the decimal text of a number reads back as that number |
| Intake.FormData.With | components/ApplicationModal.tsx:85-86 | a change sets exactly the named input; every other input keeps its value |
| Intake.IsEmail | components/ApplicationModal.tsx:58 | an address the email test accepts has at least five characters and starts and ends with a character `[^\s@]` accepts |
| Intake.EmailTestMatchesPattern | components/ApplicationModal.tsx:58 | the index-based email test accepts exactly the strings that `^[^\s@]+@[^\s@]+\.[^\s@]+$` matches: three non-empty `[^\s@]` parts around `@` and `.` |
| Intake.IsTenDigits | components/ApplicationModal.tsx:59 | the phone test accepts exactly what the anchored pattern `^\d{10}$` matches, read one character at a time |
| Intake.DigitRunIff | components/ApplicationModal.tsx:59 | the pattern `^\d{n}$` matches exactly the strings of n ASCII digits |
| Intake.StepErrors | components/ApplicationModal.tsx:53-72 | the errors of a step only ever name the six validated inputs |
| Intake.StepOneRules | components/ApplicationModal.tsx:56-60 | on step 1, each input has an error iff its own check fails: a blank name, an address the pattern rejects, a phone that is not exactly ten digits; each error has its own message, nothing else is reported, and the step passes iff all three checks hold |
| Intake.StepTwoRules | components/ApplicationModal.tsx:62-65 | on step 2, the college has an error iff the status is "Student" and the college is blank; the start date has an error iff it is empty; the step passes iff neither applies |
| Intake.StepThreeAndOtherRules | components/ApplicationModal.tsx:67-72 | on step 3, the reason has an error iff it is blank, and nothing else is reported; every other step number passes |
| Intake.Prefix | components/ApplicationModal.tsx:93-100 | the prefix is always one of INT, JOB, CRS, WS, SVC, APP |
| Intake.PrefixRoundTrip | components/ApplicationModal.tsx:93-100 | each of the five known categories gets its own prefix, which maps back to that category; every other category gets APP, which stands for none |
| Intake.IsoDatePart | components/ApplicationModal.tsx:101 | the date field has at most ten characters and no dash |
| Intake.IsoDatePartOfTimestamp | components/ApplicationModal.tsx:101 | for an ISO timestamp `YYYY-MM-DD…`, the date field of the id is `YYYYMMDD` |
| Intake.DrawnNumber | components/ApplicationModal.tsx:102 | the drawn number has four digits and reads back as 1000 + the draw, so it lies in [1000, 9999] |
| Intake.AppId | components/ApplicationModal.tsx:92-104 | every id starts with `WISE-` and has between 13 and 24 characters |
| Intake.AppIdFormat | components/ApplicationModal.tsx:92-104 | an id splits at its dashes into exactly `WISE`, the category prefix, the dashless date and the four-digit number |
| Intake.KindOf | components/ApplicationModal.tsx:109 | the stored category is the one the dialog was opened with, or "Internship" when that is missing or empty |
| Intake.RoleOf | components/ApplicationModal.tsx:116 | the stored role is the one the dialog was opened with, or "General" when that is missing or empty |
| Intake.NewApplication | components/ApplicationModal.tsx:113-122 | the new record carries the generated id, the defaulted category and role, the name, email and phone typed, the submission date, and status Submitted |
| Intake.SummaryText | components/ApplicationModal.tsx:135-165 | the summary text has the line `Application ID: <id>` on a line of its own, right after its title block |
| Intake.DownloadName | components/ApplicationModal.tsx:170 | the file name is `Wisecrew_App_` + id + `.txt`, and the id can be read back from it |
| Storage.LocalStore.Stored | components/ApplicationModal.tsx:124 | reading the entry gives the stored list, or the empty list when the key is absent |
| Storage.LocalStore.Prepend | components/ApplicationModal.tsx:124-125 | the new record goes in front of the list read, and the earlier records keep their order |
| Modal.ApplicationModal.constructor | components/ApplicationModal.tsx:16-35 | the dialog starts on step 1 with no id, the initial form and no errors |
| Modal.ApplicationModal.Open | components/ApplicationModal.tsx:37-43 | opening resets the step to 1, the id to empty and the errors to none, and keeps the form typed before |
| Modal.ApplicationModal.ValidateStep | components/ApplicationModal.tsx:53-73 | the error map is replaced, not merged, by the step's errors; the result is true iff there are none |
| Modal.ApplicationModal.Next | components/ApplicationModal.tsx:75-79 | the step goes up by exactly one when the current step passes and stays otherwise; the form is unchanged |
| Modal.ApplicationModal.Back | components/ApplicationModal.tsx:81-83 | the step goes down by one and the form, errors and id are unchanged; it is available from step 2 only, since the button is disabled on step 1 (line 408) |
| Modal.ApplicationModal.Change | components/ApplicationModal.tsx:85-90 | only the named input changes; if it had a non-empty error, that error becomes `''`; all other errors are unchanged |
| Modal.ApplicationModal.Submit | components/ApplicationModal.tsx:106-127 | when the reason is blank, nothing is stored and the step stays 3; otherwise exactly one record, with the new id, is put before the earlier records and the step becomes 4 |
| Modal.ApplicationModal.Download | components/ApplicationModal.tsx:135-170 | the saved text names the dialog's own id on a line of its own right after the title block, and the file name is `Wisecrew_App_<id>.txt`, so the id can be read back from either |
| Applications.ListingOf | components/MyApplications.tsx:44-70 | the "No Applications Yet" notice is shown iff the list is empty; otherwise there is one row per application, in stored order, showing its role, id, category, date and status |
| Applications.MyApplications.constructor | components/MyApplications.tsx:12 | the dialog starts with no applications |
| Applications.MyApplications.OnOpen | components/MyApplications.tsx:14-20 | when the key holds a list, the dialog shows exactly that list; when the key is absent, it keeps what it had; the store is only read |
| Applications.SubmitThenReview | components/MyApplications.tsx:14-20 | after a passing submission, "My Applications" lists the new record first, then the earlier ones in order, exactly as stored; the id is the one generated from the category, clock and draw, and the form is kept |
| Shell.PageFor | App.tsx:81-136 | the home layout is chosen exactly for the view names outside academy, products, services, publications and career |
| Shell.PageForFallsBackToHome | App.tsx:81-136 | a view name gets the home layout iff it is none of academy, products, services, publications, career; each of those five reaches its own layout |
| Shell.App.constructor | App.tsx:39-48 | the page starts loading, dark, with the announcement up, on home, with no dialog |
| Shell.App.ToggleTheme | App.tsx:53-60 | the dark flag flips; the `light-mode` class is set from the old flag, so it follows the new theme; nothing else changes |
| Shell.ToggleTwice | App.tsx:53-60 | toggling twice restores the flag, and restores the document class whenever it matched the theme before; the rest of the app state is unchanged |
| Shell.App.Navigate | App.tsx:66-69 | the current view becomes the given name, unchecked; nothing else changes |
| Shell.App.Apply | App.tsx:71-74 | the dialog opens with exactly the given role and category |
| Shell.App.NavbarApply | App.tsx:187 | the navigation bar's apply button opens the dialog for ("Demo Request", "Service"); the view, loading, theme, document class and announcement are unchanged |
| Shell.App.CloseModal | App.tsx:166 | the dialog closes; its data, the view, loading, theme, document class and announcement are unchanged |
| Shell.App.PreloaderComplete | App.tsx:76-78 | loading ends; nothing else changes |
| Shell.App.CloseAnnouncement | App.tsx:178 | the announcement is hidden; nothing else changes |
| Shell.JoinWaitlist | App.tsx:171-176 | the waitlist link shows the academy layout, which hides the header, bar and bot (those are shown only on home once loaded); the dialog and its data, loading, theme, document class and announcement are unchanged |
| Navigation.Dispatch | components/Navbar.tsx:25-31 | a target is an anchor iff it starts with `#`, and then names the element with that character removed; any other target is passed on unchanged as a view |
| Navigation.DispatchRoundTrip | components/Navbar.tsx:25-31 | the target is recovered from its action, and a well-formed action from its target |
| Navigation.CompanyLinksReachDistinctPages | components/Navbar.tsx:36-42 | every dropdown entry is a view target; each reaches a layout of its own, not the home fallback; no two reach the same layout |
| Navigation.Navbar.constructor | components/Navbar.tsx:13-15 | the bar starts unscrolled with both menus closed |
| Navigation.Navbar.OnScroll | components/Navbar.tsx:17-20 | the scrolled style is on iff the scroll offset exceeds 20 |
| Navigation.Navbar.NavClick | components/Navbar.tsx:25-34 | an anchor scrolls to its element, if the page has one, and leaves the view alone; any other target becomes the view; both menus are closed afterwards, and nothing else in the app changes |
| Navigation.Navbar.HoverCompanies | components/Navbar.tsx:81 | the dropdown is open exactly while the pointer is over the entry |
| Navigation.Navbar.OpenMobileMenu | components/Navbar.tsx:138 | the menu button opens the mobile menu |
| Navigation.Navbar.CloseMobileMenu | components/Navbar.tsx:149-153 | the backdrop and the close button close the mobile menu |
| Navigation.Navbar.MobileApply | components/Navbar.tsx:176 | the mobile apply button opens the demo-request dialog and closes the menu; the view, loading, theme, document class and announcement are unchanged |
| Navigation.ClickCareers | components/Navbar.tsx:25-42 | the Careers entry shows the careers layout and closes both menus; the scroll style and the rest of the app state are unchanged |
| Internships.Keeps | components/Internships.tsx:15-22 | "All" keeps everything, "Free" and "Paid" are complementary, "Online" and "Offline" keep exactly the programmes of that mode, so a hybrid programme passes neither |
| Internships.Visible | components/Internships.tsx:15-22 | every item shown is in the catalogue and passes the filter |
| Internships.VisibleExactly | components/Internships.tsx:15-22 | an item is shown iff it is in the catalogue and passes the filter; "Free" and "Paid" go by type and "Online" and "Offline" by mode, so no hybrid programme appears under a mode filter |
| Internships.VisibleOrder | components/Internships.tsx:15-22 | "All" shows the catalogue unchanged; every filter gives a subsequence in catalogue order |
| Internships.KindPartition | components/Internships.tsx:17-18 | "Free" and "Paid" together show each programme exactly once |
| Internships.ModePartition | components/Internships.tsx:19-20 | "Online", "Offline" and the hybrid remainder together cover each programme exactly once |
| Internships.CatalogueCounts | constants.tsx:25-31 | the catalogue has two free programmes, three paid ones and no hybrid one |
| Internships.InternshipBoard.constructor | components/Internships.tsx:13 | the board starts on "All" |
| Internships.InternshipBoard.SetFilter | components/Internships.tsx:81 | a filter button selects its filter |
| Internships.ApplyFeatured | components/Internships.tsx:64 | the featured card applies to "Free Internship Program" as an internship; the view, loading, theme, document class and announcement are unchanged |
| Internships.ApplyTo | components/Internships.tsx:121 | a card applies to its own title as an internship; the view, loading, theme, document class and announcement are unchanged |
| Careers.Listed | components/Careers.tsx:18-20 | every position listed is in the catalogue and, unless the filter is "All", carries the tag |
| Careers.ListedExactly | components/Careers.tsx:18-20 | "All" lists every position; any other tag lists a position iff it carries that tag |
| Careers.ListedInOrder | components/Careers.tsx:18-20 | the listing keeps catalogue order |
| Careers.EveryTagListsSomething | components/Careers.tsx:16-20 | none of the tag buttons gives an empty board |
| Careers.Badges | components/Careers.tsx:63-67 | the badges are the location and the employment type, which are never dropped, followed by the non-blank tags in their own order |
| Careers.ShownBadges | components/Careers.tsx:82 | between two and four badges are shown, the location first and the employment type second |
| Careers.ShownBadgesShape | components/Careers.tsx:63-82 | the badge row is the first four of: location, employment type, then the non-blank tags in their own order; every badge after the second is a non-blank tag |
| Careers.CareersBoard.constructor | components/Careers.tsx:13-14 | the board starts on "All" with no card open |
| Careers.CareersBoard.SetFilter | components/Careers.tsx:48 | a tag button selects its tag and leaves the open card alone |
| Careers.CareersBoard.ToggleExpand | components/Careers.tsx:22-24 | the pressed card closes if it was the open one and otherwise opens instead of any other |
| Careers.ApplyFor | components/Careers.tsx:133 | a card applies to its title as a job; the view, loading, theme, document class and announcement are unchanged |
| Selection.Toggle | components/Careers.tsx:22-24 | the result is the pressed item iff it was not the open one, and nothing otherwise; so at most one item is open |
| Selection.ToggleTwice | components/Careers.tsx:22-24 | pressing the same item twice restores the state when that item or nothing was open; when another item was open, the result is that nothing is open |
| Selection.OpenFlags | components/FAQ.tsx:25-35 | item i is drawn open iff it is the open index; at most one flag is set, and exactly one when the open index is an item |
| Products.CategoryButtons | components/Products.tsx:10 | the buttons are "All" followed by the distinct categories; each of them occurs in the catalogue, none twice |
| Products.CategoryButtonsOnce | components/Products.tsx:10 | each product category has exactly one button, after "All" |
| Products.CategoryButtonsOrder | components/Products.tsx:10 | the category buttons come in the order the categories first appear |
| Products.ByCategory | components/Products.tsx:12-14 | every product listed is in the catalogue and, unless the filter is "All", has that category |
| Products.ByCategoryExactly | components/Products.tsx:12-14 | a product is listed iff the filter is "All" or its own category |
| Products.ByCategoryInOrder | components/Products.tsx:12-14 | the listing keeps catalogue order |
| Products.EveryButtonListsSomething | components/Products.tsx:10-14 | no category button of a non-empty catalogue lists nothing |
| Products.EachItemHasOneButton | components/Products.tsx:10-14 | when no category is named "All", each product's category has exactly one button, and that button lists the product |
| Products.EachProductHasOneButton | components/Products.tsx:10-14 | every home-page product has exactly one category button, which lists it |
| Products.ProductsSection.constructor | components/Products.tsx:9 | the section starts on "All" |
| Products.ProductsSection.SetFilter | components/Products.tsx:36 | a category button selects its category |
| Showcase.EachShowcaseProductHasOneButton | components/views/ProductsView.tsx:332-333 | on the products page, where categories repeat, each product's category still has exactly one button, which lists the product |
| Showcase.ProductsPage.constructor | components/views/ProductsView.tsx:329-330 | the page starts on "All" with no product open |
| Showcase.ProductsPage.SetCategory | components/views/ProductsView.tsx:557 | a category button selects its category; an open product stays open |
| Showcase.ProductsPage.Select | components/views/ProductsView.tsx:575 | a product card opens that product's details |
| Showcase.ProductsPage.CloseDetail | components/views/ProductsView.tsx:365-376 | the backdrop and the close button close the details |
| Showcase.AssistantReply | components/views/ProductsView.tsx:262-269 | the product assistant always answers with one of its four canned texts |
| Showcase.AssistantRouting | components/views/ProductsView.tsx:262-269 | on the lower-cased text: hr/payroll/employee gives the HRMS reply; else school/education/student; else chat/ai; else the default |
| Showcase.SubstringMatch | components/views/ProductsView.tsx:263 | keywords match inside words: "Three" gets the HRMS reply |
| Showcase.AssistantSend | components/views/ProductsView.tsx:250-274 | blank input changes neither the messages, the input nor loading; otherwise the user's line and then exactly one routed reply are appended, the input is cleared and loading ends; the window stays open or closed as it was |
| Chat.MentionsAny | components/views/ProductsView.tsx:263 | a chain of `includes` is true iff the text contains one of the keywords |
| Chat.Reply | components/views/PublicationsView.tsx:85-94 | the reply to a message is the fallback or the reply of one of the rules |
| Chat.FirstMatch | components/views/PublicationsView.tsx:85-94 | the reply is the default or the reply of one of the rules |
| Chat.FirstMatchWins | components/views/PublicationsView.tsx:88-94 | the first rule the text mentions decides the reply, whatever later rules say |
| Chat.NoMatchFallsBack | components/views/PublicationsView.tsx:85-94 | text that mentions no keyword gets the default reply |
| Chat.ReplyIgnoresCase | components/views/PublicationsView.tsx:87 | a message and its lower-cased form get the same reply |
| Chat.ChatWindow.constructor | components/WisecrewBot.tsx:7-10 | a window starts closed, empty, with empty input and not loading |
| Chat.ChatWindow.Open | components/WisecrewBot.tsx:14-22 | opening shows the window; an empty conversation becomes the greeting alone, and a non-empty one is kept |
| Chat.ChatWindow.Close | components/WisecrewBot.tsx:139 | closing hides the window and keeps the conversation |
| Chat.ChatWindow.Type | components/WisecrewBot.tsx:167 | typing sets the input only |
| Chat.ChatWindow.Send | components/WisecrewBot.tsx:54-59 | blank input changes neither the messages, the input nor loading; otherwise the user's line and then exactly one bot line are appended, the input is cleared and loading ends; the window stays open or closed as it was |
| Publications.ResearchReply | components/views/PublicationsView.tsx:85-94 | the research assistant always answers with one of its four canned texts |
| Publications.ResearchRouting | components/views/PublicationsView.tsx:85-94 | on the lower-cased text: ieee/format gives the formatting reply; else topic/suggest; else plagiarism/check; else the default |
| Publications.ResearchSend | components/views/PublicationsView.tsx:73-101 | blank input changes neither the messages, the input nor loading; otherwise the user's line and exactly one routed reply are appended, the input is cleared and loading ends; the window stays open or closed as it was |
| Publications.TopicTitles | components/views/PublicationsView.tsx:175-180 | there are exactly four titles, each containing the domain |
| Publications.TopicTitlesInjective | components/views/PublicationsView.tsx:175-180 | different domains give different title lists |
| Publications.TopicGenerator.constructor | components/views/PublicationsView.tsx:167-169 | the generator starts with no domain, no results and not loading |
| Publications.TopicGenerator.SetDomain | components/views/PublicationsView.tsx:194 | typing sets the domain only |
| Publications.TopicGenerator.Generate | components/views/PublicationsView.tsx:171-198 | the button works only while not loading; with an empty domain nothing happens; otherwise loading starts and a timer is started for the current domain |
| Publications.TopicGenerator.TimerFires | components/views/PublicationsView.tsx:174-182 | the oldest timer replaces the results with the four titles for its domain, and loading ends |
| Publications.GenerateAndWait | components/views/PublicationsView.tsx:171-198 | generate followed by its timer leaves exactly four titles, each naming the domain typed, which is kept; loading has ended and no timer is left |
| Assistant.BotReply | components/WisecrewBot.tsx:62-101 | the bot's line is never empty; without a key it is one of the three canned texts |
| Assistant.BotRouting | components/WisecrewBot.tsx:62-101 | without a key, "contact" beats "service" and anything else gets the default, in any letter case; a service answer is passed through unless it is empty; a failure gives the error text |
| Assistant.SendDisabled | components/WisecrewBot.tsx:174 | the send button is disabled iff the input is blank or a reply is loading, so an enabled button always sends |
| Assistant.BotSend | components/WisecrewBot.tsx:54-104 | blank input changes neither the messages, the input nor loading; otherwise the user's line and exactly one bot line (the reply or the error text) are appended, loading ends and the button is disabled again; the window stays open or closed as it was |
| ApplySection.ApplyFormData.With | components/ApplyForm.tsx:18-20 | a change sets exactly the named input's field and keeps every other field |
| ApplySection.AllRoles | components/ApplyForm.tsx:31-34 | the picker has one entry per internship and per position |
| ApplySection.AllRolesDecode | components/ApplyForm.tsx:31-34 | the role list has one entry per internship and per job; entry k reads back as internship k's title for the first entries and then as job k's title, so order follows both lists |
| ApplySection.SiteRoleCount | components/ApplyForm.tsx:31-34 | the site's picker offers 5 + 6 = 11 roles |
| ApplySection.ApplyForm.constructor | components/ApplyForm.tsx:8-16 | the section starts unsubmitted, with empty form data, empty inputs and no timer |
| ApplySection.ApplyForm.Change | components/ApplyForm.tsx:18-20 | the input shows the new value and only the named field of the form data changes; the thank-you flag and timers are untouched |
| ApplySection.ApplyForm.Submit | components/ApplyForm.tsx:22-98 | with a required input (name, email, phone, role) empty on screen nothing happens; otherwise only the first timer starts; the form and the flag are untouched, and nothing is stored |
| ApplySection.ApplyForm.Fire | components/ApplyForm.tsx:25-56 | the first timer shows the thank-you card and starts the second; the second hides it, and when the card was up the form comes back with empty inputs while the form data is kept |
| ApplySection.SubmitAndWait | components/ApplyForm.tsx:22-29 | one submission of a filled form makes the flag read false, true, false and leaves no timer; afterwards the inputs are empty, so the form cannot be sent again untouched, while the form data still holds the old values |
| Academy.DomainIdsDistinct | components/views/AcademyView.tsx:55-66 | the ten domain ids are pairwise distinct |
| Academy.GetCourseData | components/views/AcademyView.tsx:68-91 | the lookup is total; whatever it returns is an entry of the table with five modules and three tools |
| Academy.CourseLookup | components/views/AcademyView.tsx:68-91 | "ai" gets its 3-month course, "fs" its 4-month course, and any other id the fallback course |
| Academy.DomainsOnFallback | components/views/AcademyView.tsx:55-91 | of the ten domains, exactly the last eight show the fallback course |
| Academy.AcademyView.constructor | components/views/AcademyView.tsx:88-89 | no course is open and the MOU form is hidden |
| Academy.AcademyView.SelectCourse | components/views/AcademyView.tsx:254 | a domain card opens its details |
| Academy.AcademyView.CloseCourse | components/views/AcademyView.tsx:354 | the backdrop and the close button close the details |
| Academy.AcademyView.ShowMOUForm | components/views/AcademyView.tsx:139 | a partner button shows the MOU form |
| Academy.AcademyView.HideMOUForm | components/views/AcademyView.tsx:304 | the form's close button hides it |
| Academy.AcademyView.Detail | components/views/AcademyView.tsx:352-393 | details are shown iff a course is selected, with five modules and three tools |
| Carousel.Next | components/Awards.tsx:10-12 | the next index stays below n; it is i + 1 before the last slide, and the last slide goes to 0 |
| Carousel.Prev | components/Awards.tsx:14-16 | the previous index stays below n; it is i - 1 after the first slide, and the first slide goes to n - 1 |
| Carousel.PrevNext | components/Awards.tsx:10-16 | previous undoes next, and next undoes previous |
| Carousel.FullCycle | components/Testimonials.tsx:12-13 | n steps forward return to the starting slide |
| Awards.AwardsCarousel.constructor | components/Awards.tsx:8 | the carousel starts on the first awardee |
| Awards.AwardsCarousel.NextSlide | components/Awards.tsx:10-12 | next keeps the index in range and moves it to the next slide, wrapping |
| Awards.AwardsCarousel.PrevSlide | components/Awards.tsx:14-16 | previous keeps the index in range and moves it back, wrapping |
| Awards.AwardsCarousel.GoTo | components/Awards.tsx:105 | a dot shows exactly its slide |
| Carousel.Highlight | components/Awards.tsx:102-106 | exactly one dot, the one of the shown slide, is highlighted; the testimonial cards and dots (components/Testimonials.tsx:87-96) follow the same rule |
| Awards.NextThenPrev | components/Awards.tsx:10-16 | next then previous shows the starting slide |
| Testimonials.TestimonialCarousel.constructor | components/Testimonials.tsx:9 | the carousel starts on the first testimonial |
| Testimonials.TestimonialCarousel.Tick | components/Testimonials.tsx:11-16 | a tick keeps the index in range and moves it on, wrapping after the last |
| Testimonials.TestimonialCarousel.GoTo | components/Testimonials.tsx:126 | a dot shows exactly its testimonial |
| Faq.Accordion.constructor | components/FAQ.tsx:8 | the first answer starts open |
| Faq.Accordion.Click | components/FAQ.tsx:22 | pressing the open question closes it; pressing any other opens it and closes the previous one |
| Faq.Accordion.Expanded | components/FAQ.tsx:25-35 | at most one answer is drawn open, namely the one at the open index |
| Workshops.MonthLabel | components/Workshops.tsx:30 | the month label has no space, and is the whole date when the date has none |
| Workshops.DayLabel | components/Workshops.tsx:31 | there is a day label iff the date contains a space |
| Workshops.DateLabels | components/Workshops.tsx:30-31 | a date "<month> <day>, <year>" gives the labels month and day |
| Workshops.MonthLabelOf | components/Workshops.tsx:30 | the month label is the text before the first space, whatever follows it |
| Workshops.DayLabelOf | components/Workshops.tsx:31 | the day label is the text between the first space and the next space or the end, with its first comma removed |
| Workshops.SiteWorkshopLabels | constants.tsx:123-126 | the two workshops show "Oct"/"25" and "Sep"/"10" |
| Workshops.Look | components/Workshops.tsx:24-57 | a card has the purple accent exactly when it has the register button, and never both the badge and that button |
| Workshops.LookByStatus | components/Workshops.tsx:24-57 | an upcoming workshop gets the purple accent and the register button; a completed one gets the badge and the summary button; no card has both |

## Left out

- Text.ToLower: lower-cases ASCII letters only. JavaScript's `toLowerCase` also folds non-ASCII letters, which the model does not.
- Strings are sequences of Unicode characters, not UTF-16 code units. Lengths and offsets of text with characters outside the Basic Multilingual Plane differ from JavaScript's; no text the model slices by offset contains such characters.
- The language-model call in the site assistant is a parameter (`ApiOutcome`): no key, an answer text, or a failure. The request itself is not modelled.
- The research assistant has a catch branch for a failure (components/views/PublicationsView.tsx:97-98). Nothing in its try block can throw, so that branch is not modelled.
- Chat.ChatWindow.Send: the waits inside `handleSend` are collapsed into one call. The intermediate state is not modelled: the user line shown with loading on, and any other event handled during the wait. A send that arrives while a reply is loading is not modelled either.
- Timers are step methods (`Fire`, `TimerFires`, `Tick`, `NextSlide`), with no delays. The carousels' intervals are those steps. The preloader's own timing and animation (components/ui/CyberPreloader.tsx) are not part of this model; only its completion callback is.
- The clock is a parameter: the ISO timestamp and the locale date string. The random draw is a parameter too, an offset in [0, 9000).
- JSON encoding of the store is not modelled. Neither are storage or parse failures, which the code does not handle.
- JavaScript object lookups by prototype keys are not modelled. For example, the category "constructor" would find a non-string in the prefix table, and "toString" a function in the course table. The model treats only the listed keys as present.
- Browser I/O is not modelled: scrolling, `document.body.style.overflow`, clipboard, Blob download, speech synthesis, `window.open` and event-listener registration. `NavClick` reports which element it scrolls to, given the set of ids on the page.
- The careers view page (components/views/CareerView.tsx), the services view and the purely presentational components are not part of this model.
- Display-only fields are not modelled: icons, colours, the products page's tag lines, features and specifications, the course cards' titles, and the MOU form's inputs, which hold no state.
- Awards.AwardsCarousel.constructor and Testimonials.TestimonialCarousel.constructor: these need at least one slide. With none, the source's `% 0` would produce NaN, which the model does not represent.
- Modal.ApplicationModal.Next and Modal.ApplicationModal.Back require the step the button is shown on. The handlers themselves are unguarded; the footer, the disabled Back button and the Next/Submit switch keep them there (components/ApplicationModal.tsx:404-423).
- ApplySection.ApplyForm.Submit: only the browser's `required` checks are modelled. The email input's format check (`type="email"`) is not, so the model sends a form whose email is any non-empty text. The form's state also has a `message` entry, but no input is named `message`, so no change event reaches it (components/ApplyForm.tsx:56-121); the model has no such field in `ApplyField`.
- ApplySection.ApplyForm.Change: while the thank-you card is up the form is not on the page, so no change or submit event can arrive. The model does not forbid them in that state.
- ApplySection.ApplyForm.Fire: any pending timer may fire, in any order. Only the order-independent facts are stated: whichever timer fires, its effect on the flag and on the pending list.
