# EXFORM site core in Dafny

A Dafny model of the interactive core of the EXFORM website, with proofs about that model. EXFORM is the React marketing site of a technical-services and training company. The model covers five parts.

- **The registration wizard** (`Register`). It has three steps, each validated by a zod object schema before the user may go on. Once a field is touched, it is also re-validated field by field on change and on blur. The form state is `currentStep`, `errors`, `touched`, `formData` and `isSubmitting`. That state is the class `Registration.RegistrationForm`. Its methods are the event handlers, and each is proved against the pure schema functions.
- **The keyword chatbot** (`Chatbot`). `getResponse` lower-cases the message and tries four keyword groups in order: services, laboratory, training, contact. The first group with a word in the message wins, and the default reply comes last. The widget state is the message log, the input box and the bot replies whose 1000 ms timer has not fired yet. That state is the class `Chatbot.ChatWidget`.
- **The visibility tracker** (`useScrollAnimation`). The `isVisible` flag is driven by intersection events. With `triggerOnce` it latches, and its element is unobserved. Two pure style mappers go with it: `getAnimationStyles` and `getStaggerStyles`.
- **The two reveal components** (`ScrollReveal`, `StaggerContainer`). They apply the styles to their content or to each element child.
- **The SEO effect** (`useSEO`). For each of the nine configured pages, it computes the title, description, URL, image URL and locale. It then writes them into the document title, the `lang` attribute and up to thirteen head elements. A meta or link element that is absent is skipped.

The files:

- `wrappers.dfy`: `Option`.
- `text.dfy`: the JavaScript string primitives the core relies on: `trim`, `toLowerCase`, `includes` and decimal rendering of numbers.
- `register.dfy`, `chatbot.dfy`, `scroll_animation.dfy`, `scroll_reveal.dfy` and `seo.dfy`: one per source file.

Some things the source does are outside what Dafny can see: translation, the zod e-mail check, timers and the browser. They enter the model this way:

- The language context's `t` is a parameter `translate(language, key)`.
- zod's `.email()` is a parameter `isEmail` of the form.
- A timer firing is an explicit step (`DeliverReply`, `SubmissionCompleted`).
- One invocation of the observer callback is one call of `OnIntersection` with the batch of entries it receives. Only the first entry of the batch is read, as the source does.
- The document head is a map from the thirteen queried selectors to the attributes of the element each one finds.

## Model

| member | source | states |
|---|---|---|
| Text.LeadingSpaces | src/pages/Register.tsx:14-17 | the whitespace that `trim` drops at the start is a prefix of whitespace followed by a non-space character or the end |
| Text.TrailingSpaces | src/pages/Register.tsx:14-17 | the whitespace `trim` drops at the end is a suffix of whitespace preceded by a non-space character or the start |
| Text.TrimIsInnerSlice | src/pages/Register.tsx:14-22 | `trim` returns a contiguous slice of the input; everything cut away is whitespace and the result starts and ends with a non-space character |
| Text.TrimEmptyIff | src/components/Chatbot.tsx:53 | a message trims to the empty string exactly when it is all whitespace |
| Text.Lower | src/components/Chatbot.tsx:34 | `toLowerCase` keeps the length and lower-cases character by character |
| Text.LowerIdempotent | src/components/Chatbot.tsx:34 | lower-casing twice is lower-casing once |
| Text.ContainsLower | src/components/Chatbot.tsx:34-47 | a word occurring in a message still occurs, lower-cased, in the lower-cased message |
| Text.NatToString | src/hooks/useScrollAnimation.ts:49 | a natural number below 10^21, interpolated into a template string, is a non-empty string of digits without a leading zero |
| Text.DecimalRoundTrip | src/hooks/useScrollAnimation.ts:49 | reading the decimal rendering back gives the number |
| Registration.LengthIssuesRule | src/pages/Register.tsx:14-15 | `.min(lo).max(hi)` reports nothing exactly when the length is within the bounds, and all its issues name the field |
| Registration.SchemaIssuesMatchRule | src/pages/Register.tsx:13-30 | each field's step rule reports no issue exactly when the value satisfies the rule, and every issue names that field |
| Registration.IssuesOfReportFailingFields | src/pages/Register.tsx:13-30 | an object schema's issues name exactly the fields of the schema whose value breaks its rule |
| Registration.StepIssuesReportFailingFields | src/pages/Register.tsx:66-93 | a step's issues name exactly the failing fields of the step; the step passes exactly when all of its fields satisfy their rules |
| Registration.CollectErrors | src/pages/Register.tsx:95-101 | the `forEach` loop builds the error map that keeps, for each field, the last issue reported for it |
| Registration.LastMessagesKeys | src/pages/Register.tsx:96-101 | the error map has an entry for exactly the fields some issue names |
| Registration.LastMessagesLastWins | src/pages/Register.tsx:97-100 | a field reported several times keeps the message of its last issue |
| Registration.InlineRulesAgainstStepRules | src/pages/Register.tsx:110-131 | the inline rules exist for the six text fields only; they agree with the step rules except the phone, which inline passes above 20 characters while its step fails |
| Registration.ValidatedErrorsOnlyTouchName | src/pages/Register.tsx:133-142 | `validateField` changes at most the entry of its field: none without a rule, removed on a pass, set on a failure |
| Registration.SchemaIssuesNameField | src/pages/Register.tsx:13-30 | every issue a field's schema reports names that field |
| Registration.StepMessagesShown | src/pages/Register.tsx:260-471 | right after a step is validated, the messages on screen are exactly those of the failing fields of that step that are touched text inputs or the two step-3 controls; an untouched failing input shows none |
| Registration.BlurShowsInlineVerdict | src/pages/Register.tsx:176-179 | leaving a text input of the current step shows its message exactly when the inline rule reports an issue for its value |
| Registration.RegistrationForm.MessageMatchesBorder | src/pages/Register.tsx:196-471 | on the current step a message shows exactly when its control has the destructive class; the experience level and the motivation never show one |
| Registration.RegistrationForm.constructor | src/pages/Register.tsx:40-55 | the form starts at step 1, not submitting, with no error, nothing touched and every field empty |
| Registration.RegistrationForm.ValidateStep | src/pages/Register.tsx:66-108 | false outside steps 1 to 3 with the errors unchanged; otherwise true exactly when the schema has no issue, and the errors become the last message of each failing field |
| Registration.RegistrationForm.ValidateField | src/pages/Register.tsx:110-143 | the errors become the map `validateField` computes from the first issue of the inline rule |
| Registration.RegistrationForm.HandleChange | src/pages/Register.tsx:165-174 | the value is stored, and the field is re-validated only when it was touched |
| Registration.RegistrationForm.HandleBlur | src/pages/Register.tsx:176-179 | the field becomes touched and its current value is validated |
| Registration.RegistrationForm.NextStep | src/pages/Register.tsx:181-186 | the current step is validated; only when it passes below step 3 does the step advance and `touched` clear |
| Registration.RegistrationForm.PrevStep | src/pages/Register.tsx:188-194 | above step 1 it goes back one step and clears the errors and `touched`; at step 1 nothing changes |
| Registration.RegistrationForm.HandleSubmit | src/pages/Register.tsx:145-152 | step 3 is validated whatever the current step is, and submitting starts only when it passes |
| Registration.RegistrationForm.SubmissionCompleted | src/pages/Register.tsx:155-162 | the submission timer ends submitting |
| Registration.RegistrationForm.InputClassName | src/pages/Register.tsx:196-199 | an input gets the destructive class exactly when its field has an error and has been touched |
| Chatbot.MentionsGroups | src/components/Chatbot.tsx:36-47 | the four keyword lists say the same as the four `includes` disjunctions |
| Chatbot.ClassifyIsFirstMatch | src/components/Chatbot.tsx:33-50 | the if-chain of `getResponse` is first-match-wins over the ordered keyword table on the lower-cased message |
| Chatbot.ClassifyPriority | src/components/Chatbot.tsx:36-49 | each reply is chosen exactly when one of its words occurs and no word of an earlier group does; the default exactly when no keyword occurs |
| Chatbot.ClassifyIgnoresCase | src/components/Chatbot.tsx:34 | a message and its lower-cased form get the same reply |
| Chatbot.ServiceWordsWin | src/components/Chatbot.tsx:36-38 | a service word in any case selects the services reply, whatever other keywords occur |
| Chatbot.ChatWidget.constructor | src/components/Chatbot.tsx:15-31 | on mount the log is the greeting with id 1, the input is empty and no reply is pending |
| Chatbot.ChatWidget.SetInput | src/components/Chatbot.tsx:149 | the input box holds what was typed |
| Chatbot.ChatWidget.ChangeLanguage | src/components/Chatbot.tsx:21-31 | switching to a different language resets the log to the greeting in that language, and choosing the current one changes nothing; pending replies stay |
| Chatbot.ChatWidget.SendMessage | src/components/Chatbot.tsx:52-76 | a blank input is ignored; otherwise the user message gets id n+1, a reply with id n+2 is scheduled, and the input clears |
| Chatbot.ChatWidget.HandleKeyPress | src/components/Chatbot.tsx:78-82 | Enter sends the message and any other key does nothing |
| Chatbot.ChatWidget.DeliverReply | src/components/Chatbot.tsx:65-73 | the oldest timer fires and appends the bot answer to the log as it is now |
| Chatbot.ServicesQuestion | src/components/Chatbot.tsx:36-38 | "Quels sont vos services?" is not blank and gets the services reply |
| Chatbot.ServicesConversation | src/components/Chatbot.tsx:22-76 | a services question on a fresh widget yields greeting 1, question 2 and services reply 3, with the input emptied |
| Chatbot.DuplicateIdsConversation | src/components/Chatbot.tsx:55-72 | two sends before the first reply give the ids 1, 2, 3, 3, 4 |
| Chatbot.LateReplyAfterReset | src/components/Chatbot.tsx:22-31 | a reply scheduled before a language reset arrives after the new greeting, in the old language and with its old id |
| ScrollAnimation.Resolve | src/hooks/useScrollAnimation.ts:10 | the options default to threshold 0.1, root margin `0px` and `triggerOnce` true, and given values win |
| ScrollAnimation.ReplayLatches | src/hooks/useScrollAnimation.ts:16-24 | with `triggerOnce`, the flag after any run of events is set exactly when it was set before or some entry intersected |
| ScrollAnimation.ReplayFollowsLastEvent | src/hooks/useScrollAnimation.ts:16-24 | without `triggerOnce`, the flag equals the last event |
| ScrollAnimation.VisibilityTracker.constructor | src/hooks/useScrollAnimation.ts:10-32 | the flag starts false, and the element is observed when the ref holds one |
| ScrollAnimation.VisibilityTracker.OnIntersection | src/hooks/useScrollAnimation.ts:16-25 | only the first entry of a batch counts: an intersecting one sets the flag (and, with `triggerOnce`, unobserves); a non-intersecting one clears it only without `triggerOnce` |
| ScrollAnimation.VisibilityTracker.Unmount | src/hooks/useScrollAnimation.ts:34-38 | cleanup unobserves the element and keeps the flag |
| ScrollAnimation.AnimationStyles | src/hooks/useScrollAnimation.ts:46-51 | every style has opacity 1 or 0 after the flag, and the transition of its duration and delay |
| ScrollAnimation.KnownKindTransforms | src/hooks/useScrollAnimation.ts:52-92 | each of the eight kinds moves from its hidden offset to its identity transform |
| ScrollAnimation.UnknownKindHasNoTransform | src/hooks/useScrollAnimation.ts:93-94 | any other animation name gets opacity and transition only |
| ScrollAnimation.TransitionCarriesDelay | src/hooks/useScrollAnimation.ts:49 | the delay reads back from the transition text after the easing curve |
| ScrollAnimation.StaggerIsShortFadeUp | src/hooks/useScrollAnimation.ts:98-102 | a stagger style is a 500 ms fade-up delayed by index times the stagger: identical when visible, a 30px instead of 40px offset when hidden |
| ScrollReveal.RevealTrackerOptions | src/components/ScrollReveal.tsx:19-21 | `ScrollReveal`'s tracker resolves to its threshold (default 0.1), root margin `0px` and one-shot |
| ScrollReveal.RevealDefaults | src/components/ScrollReveal.tsx:13-26 | without props the content fades up over 600 ms from a 40px offset with no delay |
| ScrollReveal.StaggerTrackerOptions | src/components/ScrollReveal.tsx:45 | `StaggerContainer`'s tracker resolves to threshold 0.1, root margin `0px` and one-shot, the same as a default `ScrollReveal` |
| ScrollReveal.StaggerChildren | src/components/ScrollReveal.tsx:49-64 | one rendered entry per child, keeping the child, wrapped exactly when it is an element |
| ScrollReveal.StaggerStylesPerChild | src/components/ScrollReveal.tsx:49-61 | each wrapped child's inline style is `getStaggerStyles` at its index, and all of them share opacity and transform |
| ScrollReveal.ThreeChildrenStagger | src/components/ScrollReveal.tsx:40-56 | three elements under the default stagger start after 0, 100 and 200 ms |
| Seo.OrElse | src/hooks/useSEO.ts:79-80 | the JavaScript fallback operator takes the fallback for a missing or empty value |
| Seo.Locale | src/hooks/useSEO.ts:81 | the locale is `fr_CI` exactly for French, `en_US` otherwise |
| Seo.UrlsExtendBase | src/hooks/useSEO.ts:68-80 | both URLs are the base URL followed by the path or image, or by their fallbacks |
| Seo.ConfiguredPagesHavePathAndImage | src/hooks/useSEO.ts:11-66 | every configured page has a path and an image starting with `/`, so neither fallback is taken |
| Seo.SelectorTextInjective | src/hooks/useSEO.ts:87-119 | the thirteen CSS selectors the effect queries are pairwise different |
| Seo.Computed | src/hooks/useSEO.ts:77-81 | title and description are the translations of the page's keys in the current language, with the URL, image URL and locale above |
| Seo.SeoTagsUpdateInPlace | src/hooks/useSEO.ts:86-119 | the effect adds no meta or link element, sets each present element's attribute, and keeps every other attribute |
| Seo.SeoTagsShareTexts | src/hooks/useSEO.ts:86-119 | title, description, URL and image go to all their tags alike, and the three fixed tags get their constants |
| Seo.WithAttributeAt | src/hooks/useSEO.ts:99-104 | setting one attribute changes only the element it targets |
| Seo.WithAttributeKeys | src/hooks/useSEO.ts:99-104 | setting an attribute never adds or removes an element |
| Seo.WriteAllAt | src/hooks/useSEO.ts:86-119 | after the thirteen updates, each present element carries its value |
| Seo.WriteAllIsSeoTags | src/hooks/useSEO.ts:86-119 | the thirteen updates in order give exactly the head the effect promises |
| Seo.Document.SetAttribute | src/hooks/useSEO.ts:87-96 | sets one attribute of the element a selector finds, nothing when none is found |
| Seo.Document.UpdateMetaTag | src/hooks/useSEO.ts:99-104 | `updateMetaTag` sets `content` on the element found, if any |
| Seo.Document.ApplySeo | src/hooks/useSEO.ts:73-124 | a page that is neither configured nor an `Object.prototype` property leaves the document alone; otherwise the title, `lang` and every found head element get the computed values |

## Left out

- Text.Trim and Text.Lower: whitespace is ASCII only, and case folding covers only ASCII and the Latin-1 capitals. Values containing non-ASCII whitespace (no-break space U+00A0, narrow no-break space U+202F, U+FEFF and the other Unicode spaces) are trimmed and matched differently. For example, the model rejects a phone number separated by no-break spaces, which the source accepts. Full Unicode trimming and case mapping are not modelled.
- String lengths count code points, not UTF-16 code units. The two differ only outside the Basic Multilingual Plane.
- zod's `.email()` is a parameter `isEmail` and is not modelled.
- Error messages are represented by the rule that failed (`Check`). Their French text is not modelled.
- `err.path[0]` is always a field name here, so the guard at line 98 of `src/pages/Register.tsx` always holds and is not modelled.
- The form has exactly its ten fields, as a closed datatype. `handleChange` and `handleBlur` are only ever called with those names.
- Registration.RegistrationForm.SubmissionCompleted: the toast and the navigation to `/thanks` are not modelled. Only the end of submitting is.
- The date input's `min` attribute and the rest of the page markup are not modelled. Only error display and the input class are.
- The inputs' `maxLength` attributes (lines 282, 300, 322, 343, 376, 395 and 485 of `src/pages/Register.tsx`) are not modelled. They stop typing past the limit, though pasting or autofill may not respect them. The model accepts values of any length, so the over-long phone and motivation its lemmas discuss may be unreachable by typing.
- Timers are explicit steps, with pending replies delivered in the order they were scheduled. Equal delays fire in that order.
- Message timestamps are left out.
- The chatbot's open and closed state (`isOpen`) only controls rendering and is not modelled.
- Message ids are not unique. Each send takes its ids from the log length at send time, so two sends before a reply reuse an id (`Chatbot.DuplicateIdsConversation`). The model follows the code, not a reading of the ids as monotonic.
- Chatbot.ChatWidget.ChangeLanguage: the language context provider is not part of this model. The model assumes that its `t` changes identity exactly when the language changes, so the reset runs on a change of language and never otherwise.
- The chatbot's reset effect depends on `t` alone. The source comment says it also runs when the widget opens, but the code does not, and the model follows the code.
- `threshold` and `rootMargin` go to the browser's `IntersectionObserver` and are carried as opaque values. The observer's geometry is not modelled.
- The observer delivers entries in batches, and only the first entry of each batch is read. `Replay` takes the sequence of these first entries.
- When a tracker's options change, React re-runs its effect. That re-run is not modelled.
- Durations and delays are natural numbers. Fractional or negative milliseconds are not modelled. Durations, delays and index × stagger are assumed below 2^53: larger JavaScript numbers lose precision, and from 1e21 a template string renders them in exponent form (`1e+21`), while `Text.NatToString` always writes every decimal digit.
- `React.Children.map` flattens nested arrays of children. The model takes the list after that flattening. A Fragment is one element child, with one wrapper and one index. Null, undefined and boolean children keep their index (`Child.Other`). The model does not drop the null results the callback returns for them.
- Of the document, the model keeps only the title, the `lang` attribute and the thirteen head elements the effect queries. Each element is the first one matching its selector. An element that two selectors match (say a `meta` carrying both `name="description"` and `property="og:description"`) is modelled as two independent entries, although in the source a write through one selector changes what the other finds. Setting `document.title` creates a `<title>` element in the head when the document has none; the model's `title` field does not record whether that element existed. The effect's re-running when `page`, `t` or `language` changes is not modelled.
- Seo.Document.ApplySeo: the page lookup `seoConfigs[page]` is modelled as a map of the nine configured pages. In the source it is a plain object typed `Record<string, SEOConfig>`, so a name inherited from `Object.prototype` (`toString`, `constructor`, `valueOf`, `__proto__`) yields a truthy value that passes the guard at line 75 of `src/hooks/useSEO.ts`. The effect then writes translations of `undefined` keys, the URL `https://exform.ci/` and the default image. The model treats such names as unknown and leaves the document unchanged; the pages that call the hook pass configured names (`training` in `src/pages/Training.tsx`, `about` in `src/pages/About.tsx`, `notfound` in `src/pages/NotFound.tsx`).
