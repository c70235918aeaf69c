# FX Global academy site: a verified Dafny model

This project models the decision logic of the FX Global trading-academy web
site. The site has two halves:

- a Django backend: the trading quiz (entry form, scoring, interest and
  rating ladders), the customer-contact API, the client for the Lahza
  payment gateway, the video catalogue with its admin and its two import
  scripts;
- the static JavaScript pages served beside it: the Black Friday page (two
  copies), the Lahza checkout, the payment and packages pages with their
  payment-status polling, the new pricing page with its carousels and
  lightbox, the two Ramadan campaign pages, the new landing page, the elite
  registration form, the asset configuration, and the React weekly countdown.

Each source file of the core has its own module. Stateful pages are classes
whose fields are the page's globals, and their handlers are methods with
`modifies` clauses. The clock, timer ticks, `fetch` replies, the DOM's
inputs and `localStorage` are parameters or fields. Pure helpers (if/elif
ladders, validators, mappings) are functions with lemmas that relate them to
independent definitions.

Shared modules:

- `Wrappers`: `Option`.
- `Text`: digits, trimming, splitting and joining, case mapping, and decimal
  printing, with their round trips.
- `Json`: JSON values with Python and JavaScript truthiness and `or`.
- `Clock`: millisecond arithmetic, the countdown breakdown and a proleptic
  Gregorian calendar counted from 1970.
- `FormRules`: the validators the pages share (name length, digit count of a
  mobile number, the e-mail pattern).
- `Ordering`: a stable insertion sort used for Django's `order_by`.
- `Arith`: small integer facts.

## Model

| member | source | states |
|---|---|---|
| ExamModels.ParseAnswer | backend/exams/models.py:31-34 | only 'buy' and 'sell' are accepted, and an accepted value maps back to the same stored string |
| ExamModels.ParseAnswerValue | backend/exams/models.py:31-34 | every answer choice parses back from its stored value |
| ExamModels.NewParticipant | backend/exams/models.py:8-17 | a new participant row has the given name, phone, e-mail and creation time, and every result field at its default (0, '' or null) |
| ExamModels.ActiveQuestions | backend/exams/models.py:47-52 | the active questions are exactly the active rows of the table, ordered by (order, id) |
| ExamModels.ActiveQuestionIdsUnique | backend/exams/models.py:47-52 | filtering and ordering the questions keeps their ids distinct |
| ExamModels.ParticipantsByNewest | backend/exams/models.py:22 | participants are listed newest first, as a permutation of the table |
| ExamModels.FilterKeepsIdsUnique | backend/exams/models.py:47 | a filtered question list keeps distinct ids |
| ExamModels.PermutationKeepsIdsUnique | backend/exams/models.py:52 | reordering questions with distinct ids keeps them distinct |
| ExamModels.ExamDatabase.constructor | backend/exams/models.py:9 | an empty participant table over a question bank satisfies the declared constraints: unique phone, unique keys, one submission per (participant, question) |
| ExamModels.ReplaceKeepsKeys | backend/exams/models.py:9 | rewriting a participant's non-key fields keeps phones and primary keys unique |
| ExamModels.FindById | backend/exams/views.py:39 | the row found has the requested primary key; no row is found only when no row has that key |
| ExamModels.FindByPhone | backend/exams/forms.py:54-57 | the row found has the requested phone; no row is found only when no row has that phone |
| ExamForms.CleanPhone | backend/exams/forms.py:36-40 | a phone is accepted exactly when something is left after stripping, and the accepted phone is stripped and non-empty |
| ExamForms.CleanPhoneIdempotent | backend/exams/forms.py:36-40 | cleaning an accepted phone again gives the same phone |
| ExamForms.SaveEntry | backend/exams/forms.py:42-67 | get-or-create by phone: an existing participant gets the new name and e-mail, keeps created_at, and gets last_result_at only if it was empty; otherwise one new row is appended; either way one row holds the phone and the table constraints still hold |
| ExamForms.FieldNameInjective | backend/exams/forms.py:78 | distinct question ids give distinct field names |
| ExamForms.ExamFormFields | backend/exams/forms.py:77-86 | the quiz form has one field per question |
| ExamForms.ExamFormHasOneFieldPerQuestion | backend/exams/forms.py:77-86 | with distinct question ids no field overwrites another, and every field is required with the choices buy and sell |
| ExamForms.SelectedAnswer | backend/exams/views.py:55-56 | the cleaned answer of a valid quiz form is the one whose stored value was posted |
| ExamForms.ReturningParticipantRejected | backend/exams/forms.py:42-67 | as written, the unique phone makes form validation refuse any phone already stored, so save's update branch can never run from the entry view |
| ExamForms.ReturningParticipantExample | backend/exams/forms.py:42-67 | a concrete second visit with the same phone is refused |
| ExamForms.EnterExam | backend/exams/views.py:19-26 | with the intended validation, a valid entry saves the participant (updating a returning one) and puts its id in the session; an invalid entry changes nothing |
| ExamViews.ScorePercentage | backend/exams/views.py:72 | the score is at most 100, is 100 exactly when every answer is correct, and is 0 when none is |
| ExamViews.ScoreBelowHundred | backend/exams/views.py:72 | the integer percentage stays below 100 while one answer is wrong |
| ExamViews.ScoreMonotone | backend/exams/views.py:72 | more correct answers out of the same total never lower the score |
| ExamViews.InterestMonotone | backend/exams/views.py:74-76 | a higher score never gives a lower interest band |
| ExamViews.InterestBands | backend/exams/views.py:74-76 | the keenest band is exactly the scores from 80, the lowest exactly those below 50 |
| ExamViews.RatingFor | backend/exams/views.py:78-92 | the rating value is between 1 and 5 |
| ExamViews.RatingMonotone | backend/exams/views.py:78-92 | a higher score never gives a lower rating |
| ExamViews.RatingMessageDeterminedByValue | backend/exams/views.py:78-92 | two scores with the same rating value get the same message |
| ExamViews.Grade | backend/exams/views.py:54-70 | one result per question, in question order, correct exactly when the selected answer is the question's correct answer |
| ExamViews.CorrectCount | backend/exams/views.py:64-65 | the correct count never exceeds the number of results |
| ExamViews.CorrectCountBounds | backend/exams/views.py:64-65 | the count equals the number of results exactly when all are correct, and is 0 exactly when none is |
| ExamViews.SubmissionsOf | backend/exams/views.py:58-63 | one submission per result, in order, carrying the participant, question, answer and correctness |
| ExamViews.Scored | backend/exams/views.py:72-119 | the results page of a valid quiz has a correct count at most the total, a score at most 100 and a rating from 1 to 5 |
| ExamViews.WithResult | backend/exams/views.py:94-107 | saving a result changes exactly the six result fields; name, phone, e-mail and created_at are kept |
| ExamViews.ExamStart | backend/exams/views.py:33-137 | no participant in the session redirects to the entry page and an unknown id is a 404, both changing nothing; for a known participant, no active questions gives the empty-exam page, a GET or an invalid form shows the form, and a valid POST always reaches the results, which replace the participant's submissions with the graded ones and save the result fields |
| ExamViews.GradeAndRecord | backend/exams/views.py:50-107 | a valid POST yields the graded results page, and leaves the submissions and the participant row as the view writes them |
| ExamViews.ReplaceSubmissions | backend/exams/views.py:50-70 | the participant's old submissions are deleted and one per question is created, in order, while the correct answers are counted; other participants' rows and the constraints are kept |
| ExamViews.GradeQuestion | backend/exams/views.py:55-70 | one loop step grades the next question, appends its result and submission, and keeps the count |
| ExamViews.GradePrefixStep | backend/exams/views.py:54-70 | grading one more question appends exactly that question's result |
| ExamViews.SubmissionsOfAppend | backend/exams/views.py:58-63 | one more result appends exactly one submission |
| ExamViews.CorrectCountAppend | backend/exams/views.py:64-65 | one more result adds one to the count exactly when it is correct |
| ExamViews.SubmissionsStayUnique | backend/exams/models.py:80 | replacing a participant's submissions with one per distinct question keeps (participant, question) unique |
| ExamViews.FilterKeepsPairsUnique | backend/exams/models.py:80 | deleting submissions keeps (participant, question) unique |
| ContactSerializers.ValidateWhatsapp | backend/contacts/serializers.py:18-26 | an empty value is refused as required, a value with fewer than eight digits (by Python's `isdigit`) as invalid, and an accepted number is the value's digits in order, at least eight of them |
| ContactSerializers.PyDigits | backend/contacts/serializers.py:23 | filtering by `str.isdigit` keeps only digits, in order, and never lengthens the value |
| ContactSerializers.PyDigitsOfDigits | backend/contacts/serializers.py:23 | a value made only of digits passes the filter unchanged |
| ContactSerializers.PyDigitsOfAscii | backend/contacts/serializers.py:23 | on ASCII text the Python filter keeps the same characters as the pages' `replace(/[^\d]/g, '')` |
| ContactSerializers.ArabicIndicNumberAccepted | backend/contacts/serializers.py:23-26 | a number of eight or more Arabic-Indic digits is accepted as typed |
| ContactSerializers.ValidateWhatsappIdempotent | backend/contacts/serializers.py:23-26 | an accepted number fed back in is accepted unchanged |
| ContactSerializers.ValidateWhatsappIgnoresFormatting | backend/contacts/serializers.py:23 | two non-empty values with the same digits get the same outcome |
| FormRules.EmailShape | backend/staticfiles/black_friday/lahza_checkout.js:601 | an address the e-mail pattern accepts has no whitespace and exactly one '@', not in first place |
| FormRules.EmailExamples | backend/staticfiles/black_friday/lahza_checkout.js:601 | the pattern accepts an address with a dot after the '@' and refuses one without |
| FormRules.FirstPaymentFieldError | backend/staticfiles/black_friday/lahza_checkout.js:584-604 | no alert exactly when both names have two characters, the mobile eight digits and the e-mail matches; otherwise the alert is for a failing rule and every rule checked before it passed |
| LahzaService.RStrip | backend/config/lahza_service.py:20 | the result is a prefix of the input that does not end in the stripped character, and only that character was removed |
| LahzaService.RStripIdempotent | backend/config/lahza_service.py:20 | stripping twice is stripping once |
| LahzaService.BaseUrl | backend/config/lahza_service.py:19-20 | the base URL never ends in '/', and is https://api.lahza.io when the setting is absent |
| LahzaService.HeadersFor | backend/config/lahza_service.py:23-31 | the headers are refused exactly when the secret is unset or empty; otherwise the Authorization header's Bearer token is the secret, and both content headers are application/json |
| LahzaService.BuildInitializePayload | backend/config/lahza_service.py:58-75 | the dictionary filled key by key equals the payload definition |
| LahzaService.PayloadRequiredFields | backend/config/lahza_service.py:58-62 | email, amount and the upper-cased currency are always sent |
| LahzaService.PayloadCustomerFields | backend/config/lahza_service.py:64-71 | ref, mobile, firstName and lastName are each sent exactly when their argument is truthy, with that value |
| LahzaService.PayloadOptionalFields | backend/config/lahza_service.py:72-75 | metadata is sent exactly when it is non-empty, callback_url exactly when it is truthy |
| LahzaService.PayloadKeySet | backend/config/lahza_service.py:58-75 | no key other than the required and the truthy optional ones is sent |
| LahzaService.CheckReply | backend/config/lahza_service.py:79-94 | a network error raises its own text, a non-JSON body raises the invalid-response error; the reply passes exactly when it is OK, a JSON object and its status is truthy; otherwise the error carries the reply's message or the call's default |
| LahzaService.InitializeTransaction | backend/config/lahza_service.py:34-97 | without a secret nothing is sent and the missing-key error is raised; otherwise one POST goes to the base URL's /transaction/initialize with the Bearer headers and the payload, and the outcome follows the reply |
| LahzaService.InitializeOutcome | backend/config/lahza_service.py:96-97 | a failed reply raises its error; a passed one returns its "data" when truthy, else the whole reply, and raises when "data" is present but not an object |
| LahzaService.VerifyUrlReference | backend/config/lahza_service.py:106 | the verify URL is the base URL's /transaction/verify/ followed by the reference, which can be read back from it |
| LahzaService.VerifyTransaction | backend/config/lahza_service.py:100-134 | without a secret nothing is sent and the missing-key error is raised; otherwise one GET goes to the verify URL, and the outcome follows the reply |
| LahzaService.VerifyOutcome | backend/config/lahza_service.py:124-134 | a failed reply raises its error; a passed one returns the transaction ("data" when truthy, else the whole reply) exactly when it is an object |
| LahzaService.VerifyReturnsObject | backend/config/lahza_service.py:109-134 | a verification that returns has had an OK reply, and returns a JSON object |
| VideoModels.AppendKeepsIds | backend/videos/models.py:5-58 | a row appended with the next id keeps the primary keys distinct and below the next id |
| VideoModels.ReplaceKeepsIds | backend/videos/models.py:5-58 | a row rewritten in place with its own id keeps the primary keys distinct |
| VideoModels.VideoStore.constructor | backend/videos/models.py:5-58 | a store over rows with distinct keys starts valid with exactly those rows |
| VideoViews.ActiveVideos | backend/videos/views.py:13-20 | the listing holds exactly the active videos of the requested position (every active one when the position is empty or absent), as a permutation of those rows, ordered by order then newest first |
| VideoViews.NoPositionNoFilter | backend/videos/views.py:16-17 | an empty position parameter lists the same videos as none |
| VideoViews.HeroVideo | backend/videos/views.py:28-34 | the 404 with 'No hero video found' comes exactly when no active hero video exists; otherwise the video returned is an active hero video that comes first in (order, newest) order |
| VideoViews.HeroIsHeadOfHeroList | backend/videos/views.py:14-30 | the hero endpoint returns the head of the listing for position 'hero', and finds one exactly when that listing is non-empty |
| VideoAdmin.VideoType | backend/videos/admin.py:33-39 | 'Uploaded File' exactly when a file is set, else 'Vimeo' exactly when a Vimeo id is set, else 'External URL' exactly when a URL is set, else 'No video' |
| VideoAdmin.VideoTypeOnlyReadsSources | backend/videos/admin.py:33-39 | the column depends on the three source fields only |
| AddVideosCommand.LastIndexOf | backend/videos/management/commands/add_videos_from_directory.py:52 | the index found holds the character and no later index does; none is found only when the character does not occur |
| AddVideosCommand.Stem | backend/videos/management/commands/add_videos_from_directory.py:52 | the stem is a prefix of the file name |
| AddVideosCommand.Title | backend/videos/management/commands/add_videos_from_directory.py:52 | the title is the stem, character for character, with every '_' and '-' turned into a space, so neither remains |
| AddVideosCommand.PositionFor | backend/videos/management/commands/add_videos_from_directory.py:55-57 | the position is 'hero' exactly when the lower-cased name contains 'hero' or 'horizontal', else 'testimonials' |
| AddVideosCommand.AlreadyImportedIff | backend/videos/management/commands/add_videos_from_directory.py:45-48 | a file counts as imported exactly when some row's video_file contains its name, ignoring case |
| AddVideosCommand.Import | backend/videos/management/commands/add_videos_from_directory.py:36-68 | the run keeps every existing row in place and adds at most one row per file, each active, with order 0, a fresh consecutive id and position hero or testimonials |
| AddVideosCommand.ImportStep | backend/videos/management/commands/add_videos_from_directory.py:44-68 | handling one more file appends its row exactly when no row mentions it yet |
| AddVideosCommand.ImportPrefixStep | backend/videos/management/commands/add_videos_from_directory.py:36 | the files are handled in order, one at a time |
| AddVideosCommand.ImportOneUnfolds | backend/videos/management/commands/add_videos_from_directory.py:45-65 | a file is skipped when mentioned, else appended with the next id |
| AddVideosCommand.ImportedVideoMentionsFile | backend/videos/management/commands/add_videos_from_directory.py:61 | a created row's video_file ('videos/' + name) mentions the file, so a second run skips it |
| AddVideosCommand.ImportCoversFiles | backend/videos/management/commands/add_videos_from_directory.py:36-68 | after the run every file of the directory is mentioned by some row |
| AddVideosCommand.AppendedRowMentions | backend/videos/management/commands/add_videos_from_directory.py:45 | a table whose new last row mentions a file has that file imported |
| AddVideosCommand.PrefixKeepsMention | backend/videos/management/commands/add_videos_from_directory.py:45 | creating a row keeps every earlier file imported |
| AddVideosCommand.ImportKeepsExisting | backend/videos/management/commands/add_videos_from_directory.py:36-68 | rows that existed before the run are never changed |
| AddVideosCommand.AddVideosFromDirectory | backend/videos/management/commands/add_videos_from_directory.py:13-70 | a missing directory adds nothing; otherwise the table becomes the import of the .mp4 then the .mov files, the keys stay distinct, and added_count is the number of rows created, at most the number of files |
| AddVideosCommand.ImportFiles | backend/videos/management/commands/add_videos_from_directory.py:35-68 | the loop leaves the table as the import of the files, with added_count rows more and distinct keys |
| AddVideosCommand.ImportFile | backend/videos/management/commands/add_videos_from_directory.py:44-68 | one iteration creates a row with the next id exactly when no row mentions the file, and leaves the import of one more file |
| AddVideosCommand.ImportKeepsIds | backend/videos/management/commands/add_videos_from_directory.py:59-65 | the rows a run creates take fresh ids, so the primary keys stay distinct |
| AddVideosCommand.ImportOneKeepsIds | backend/videos/management/commands/add_videos_from_directory.py:59-65 | one created row keeps the primary keys distinct |
| AddHeroVideo.HeroIndices | backend/add_video.py:20-22 | the lookup matches exactly the rows with position 'hero' that are active |
| AddHeroVideo.NewHero | backend/add_video.py:20-29 | a created row is an active hero row with order 0, the given title, Vimeo id and URL, and no file |
| AddHeroVideo.UpdateHero | backend/add_video.py:31-39 | an update sets the title and the active flag, replaces the Vimeo id and the URL only when given, and keeps every other field |
| AddHeroVideo.UpdateHeroIdempotent | backend/add_video.py:31-39 | running the update twice with the same arguments is running it once |
| AddHeroVideo.UpdateKeepsHero | backend/add_video.py:31-39 | an updated hero row is still matched by the lookup |
| AddHeroVideo.AddHeroVideo | backend/add_video.py:17-44 | no matching row: one is created; exactly one: it is updated in place; several: MultipleObjectsReturned is raised and nothing changes; the keys stay distinct and the returned row is an active hero row with the given title |
| BlackFridayPage.CurrencySymbol | backend/static/black_friday/script.js:8-16 | ILS, EUR and GBP get their own symbols; every other code, USD included, gets '$' |
| BlackFridayPage.ChooseEndTime | backend/static/black_friday/script.js:617-678 | the chosen end time is always ahead of now; the API's end time wins when it is ahead, and when the API fails a cached end time that is ahead is used |
| BlackFridayPage.OnlyApiEndTimesCached | backend/static/black_friday/script.js:634-676 | the end time is cached exactly on the API branch; the fallback used when the API fails is never cached |
| BlackFridayPage.RefreshesSpaced | backend/static/black_friday/script.js:703-706 | refreshes after expiry are started more than a minute apart, and more than a minute after the recorded one |
| BlackFridayPage.CountdownTexts | backend/static/black_friday/script.js:721-727 | the fields show the remaining hours (unbounded), minutes and seconds, the last two always two digits |
| BlackFridayPage.SaleCountdown.constructor | backend/static/black_friday/script.js:596-601 | the page starts with no end time, no interval and the given storage |
| BlackFridayPage.SaleCountdown.InitializeCountdown | backend/static/black_friday/script.js:596-769 | without the three fields nothing changes but the interval stops; otherwise the end time is chosen and is ahead, storage is written as the chosen branch says, the fields show the remaining time and the interval runs |
| BlackFridayPage.SaleCountdown.UpdateCountdown | backend/static/black_friday/script.js:688-758 | while time is left the fields show it; once it has run out they read '00' and a refresh starts, recorded at this instant, exactly when none was recorded or the last is over a minute old; the end time is not changed by a tick |
| BlackFridayPage.SaleCountdown.ApplyRefresh | backend/static/black_friday/script.js:708-716 | a refresh reply replaces and caches the end time exactly when it reports success and a later end time; the fields are untouched |
| BlackFridayPage.DefaultPreSaleTarget | backend/static/black_friday/script.js:300-310 | the default target is 26 November 00:00 of this year, or of next year when that is not after now, and is always ahead |
| BlackFridayPage.PreSaleTarget | backend/static/black_friday/script.js:285-311 | the API's date is used when it gave one, else the default |
| BlackFridayPage.PreSaleDisplayAt | backend/static/black_friday/script.js:376-446 | the banner shows 'ended' exactly when the target is reached; otherwise days, hours, minutes and seconds of the distance, the last three two digits |
| BlackFridayPage.DefaultTargetShowsRunning | backend/static/black_friday/script.js:300-310 | with the default target the banner is counting down |
| BlackFridayPage.PreSaleTimer.constructor | backend/static/black_friday/script.js:367-451 | the banner starts shown with its interval running |
| BlackFridayPage.PreSaleTimer.Tick | backend/static/black_friday/script.js:376-446 | without the four fields nothing changes; on expiry the fields read '00', the banner hides, the cached end time is removed, the interval stops and the sale countdown starts; otherwise the fields show the remaining time |
| BlackFridayPage.ValidatePaymentForm | backend/static/black_friday/script.js:1224-1262 | no verdict without the inputs; otherwise valid exactly when both trimmed names have two characters, the trimmed mobile eight, the trimmed e-mail matches, the policies are accepted and reCAPTCHA is loaded |
| BlackFridayPage.ValidationIgnoresSurroundingSpace | backend/static/black_friday/script.js:1236-1239 | surrounding whitespace never changes the verdict |
| BlackFridayPage.ContactBody | backend/static/black_friday/script.js:1145-1154 | the contact body has exactly the eight keys name, email, phone, whatsapp, city, message, contact_type and form_type |
| BlackFridayPage.ContactSubmission | backend/static/black_friday/script.js:1074-1156 | a name shorter than two characters is refused first, then a phone shorter than eight, then a missing or empty contact type, each exactly when the earlier rules pass and its own fails; the form is sent exactly when all three pass |
| BlackFridayPage.LandingCodeIgnored | backend/static/black_friday/script.js:1138-1143 | the landing code read from the URL never reaches the request |
| BlackFridayPage.ContactWhatsappIsPhone | backend/static/black_friday/script.js:1097-1099 | a sent body carries the trimmed phone as both phone and whatsapp |
| BlackFridayPage.ContactSentFields | backend/static/black_friday/script.js:1096-1154 | a sent body carries the trimmed name, the trimmed e-mail or '' without its input, the trimmed phone as phone and whatsapp, the trimmed city or null without its input, the trimmed message or 'Contact form submission from Black Friday page' without its input, the chosen contact type and form_type 'main_contact' |
| BlackFridayPage.ContactBodyPhone | backend/static/black_friday/script.js:1147-1150 | the body's whatsapp and phone are the same value |
| BlackFridayLegacy.NextMidnight | black-friday/script.js:207-212 | the fallback end time is a local midnight, after now and at most a day ahead |
| BlackFridayLegacy.LegacyEndTime | black-friday/script.js:172-214 | a fresh cached end time wins without a fetch; else the API's end time, ahead or not; else the cached value even when expired; else the next midnight; never 0 |
| BlackFridayLegacy.LegacyCaching | black-friday/script.js:172-214 | a fresh cache is neither refetched nor rewritten, the midnight fallback is never cached, and the API's end time always is, with the fetch instant |
| BlackFridayLegacy.StaleEndTimeKept | black-friday/script.js:201-205 | with the API down, an expired cached end time is used as it is, so the page can start already expired |
| BlackFridayLegacy.LegacyCountdown.constructor | black-friday/script.js:154-159 | the page starts with no end time, no interval and the given storage |
| BlackFridayLegacy.LegacyCountdown.InitializeCountdown | black-friday/script.js:154-301 | the API is asked exactly when the cache is not fresh; the end time is chosen, storage written accordingly, the first tick rendered when the fields exist, and the interval started even when they do not |
| BlackFridayLegacy.LegacyCountdown.UpdateCountdown | black-friday/script.js:223-293 | nothing happens without an end time or the fields; otherwise the remaining time, or '00' and a refresh when none was recorded or the last is over a minute old |
| BlackFridayLegacy.LegacyCountdown.ApplyRefresh | black-friday/script.js:240-250 | a refresh reply replaces and caches the end time exactly when it reports success and a later end time |
| BlackFridayLegacy.LegacyPreSaleTarget | black-friday/script.js:311-319 | the target is 26 November 00:00 of this year, moved to next year only when strictly behind now |
| BlackFridayLegacy.PreSaleTargetsDiffer | black-friday/script.js:317 | this page and the backend page choose different targets exactly at the instant 26 November begins, where this one counts down to now and shows 'ended' |
| BlackFridayLegacy.LegacyPreSaleTimer.constructor | black-friday/script.js:304-372 | the target is fixed once; the first tick renders, and the interval starts even when that tick found the target reached |
| BlackFridayLegacy.LegacyPreSaleTimer.Tick | black-friday/script.js:323-362 | without the fields nothing changes; on expiry the fields read '00', the banner hides and the interval stops; otherwise the fields show the remaining time |
| BlackFridayLegacy.ValidateLegacyPayment | black-friday/script.js:702-723 | no verdict without the inputs; otherwise valid exactly when the trimmed name has two characters and the trimmed e-mail matches |
| BlackFridayLegacy.BackendAcceptanceImpliesLegacy | black-friday/script.js:702-723 | every payment form the backend page accepts is accepted here on its first name and e-mail |
| BlackFridayLegacy.LegacyContactSubmission | black-friday/script.js:576-629 | a name shorter than two characters is refused first, then a phone shorter than eight; the form is sent exactly when both pass |
| BlackFridayLegacy.LegacyContactBody | black-friday/script.js:597-629 | a sent body has name, phone, whatsapp, message and city, plus the upper-cased landing code exactly when the URL has one; whatsapp equals phone and the message is fixed |
| BlackFridayLegacy.ContactBodyFields | black-friday/script.js:597-629 | the same facts about the body as built from the trimmed fields |
| BlackFridayLegacy.NameCheckedFirst | black-friday/script.js:606-613 | a short name refuses the form whatever the phone |
| LahzaCheckout.ParamOr | backend/staticfiles/black_friday/lahza_checkout.js:67 | a present, non-empty query parameter is used as it is; an absent or empty one gives the fallback |
| LahzaCheckout.CheckoutUrl | backend/staticfiles/black_friday/lahza_checkout.js:65-71 | without a checkoutUrl parameter the fixed Lahza checkout link is used; the URL is never empty |
| LahzaCheckout.PriceOr | backend/staticfiles/black_friday/lahza_checkout.js:79-80 | a parsed price other than NaN and 0 is used; NaN and 0 give the default |
| LahzaCheckout.OfferFromUrl | backend/staticfiles/black_friday/lahza_checkout.js:74-97 | every field of the offer is set, the prices non-zero and the texts non-empty |
| LahzaCheckout.MissingParamsGiveDefaultOffer | backend/staticfiles/black_friday/lahza_checkout.js:77-84 | with none of the offer's parameters given, the offer is the 136 (of 300) bundle |
| LahzaCheckout.GivenParamsWin | backend/staticfiles/black_friday/lahza_checkout.js:77-84 | a given offer type and given non-zero prices always replace the defaults |
| LahzaCheckout.CallbackReference | backend/staticfiles/black_friday/lahza_checkout.js:101-109 | verification starts exactly when 'reference' or 'ref' is non-empty, and 'reference' wins |
| LahzaCheckout.MessageVerifications | backend/staticfiles/black_friday/lahza_checkout.js:315-346 | messages from other origins are ignored; at most two verifications are scheduled, each for the message's truthy reference |
| LahzaCheckout.SuccessMessageVerifiedTwice | backend/staticfiles/black_friday/lahza_checkout.js:323-345 | a payment_success message that also says status 'success' verifies the same reference twice |
| LahzaCheckout.ValidateCheckoutForm | backend/staticfiles/black_friday/lahza_checkout.js:461-517 | valid exactly when all inputs and the button exist, both trimmed names have two characters, the mobile eight digits, the e-mail matches, the policies are accepted and the reCAPTCHA API is loaded |
| LahzaCheckout.MobileFormattingIgnored | backend/staticfiles/black_friday/lahza_checkout.js:485-486 | inserting a non-digit anywhere in the mobile number never changes its validity |
| LahzaCheckout.SubmitChecks | backend/staticfiles/black_friday/lahza_checkout.js:546-619 | missing inputs stop silently; otherwise the first failing field alerts, then the policy checkbox, then a missing pay button; payment proceeds with the trimmed fields exactly when all pass |
| LahzaCheckout.ValidatorAgreesWithSubmit | backend/staticfiles/black_friday/lahza_checkout.js:461-619 | with the reCAPTCHA API loaded and the button present, the live validator and the submit-time checks accept the same forms |
| LahzaCheckout.ReplyError | backend/staticfiles/black_friday/lahza_checkout.js:164-166 | `error || message || default`: the first truthy field, of whatever JSON type, else the default text |
| LahzaCheckout.RefusalScreen | backend/staticfiles/black_friday/lahza_checkout.js:163-181 | a string error or message is shown, made friendly, with the callback's reference; a truthy non-string makes `toLowerCase()` throw (line 850) and the catch shows that TypeError's text, made friendly, with the URL's reference or ref, else 'Unknown' |
| LahzaCheckout.NumericErrorShowsUrlReference | backend/staticfiles/black_friday/lahza_checkout.js:163-181 | a refusal whose error is the number 5 shows the TypeError text and the URL's reference, not the callback's |
| LahzaCheckout.DeclineCauseOf | backend/staticfiles/black_friday/lahza_checkout.js:850-867 | the lower-cased message is classed by the first of declined/failed, insufficient, expired, invalid it contains; both directions of each case |
| LahzaCheckout.FriendlyMessage | backend/staticfiles/black_friday/lahza_checkout.js:840-870 | an unclassified message is shown as it is; a declined one gets the bank-declined wording |
| LahzaCheckout.LowerKeepsLowercase | backend/staticfiles/black_friday/lahza_checkout.js:850 | a string without capitals is unchanged by the lower-casing |
| LahzaCheckout.FailedMessagesDecline | backend/staticfiles/black_friday/lahza_checkout.js:164-166 | every message ending in 'failed', the verification's own default among them, is shown as a declined card |
| LahzaCheckout.CheckoutPage.constructor | backend/staticfiles/black_friday/lahza_checkout.js:1-24 | the page starts with no offer, empty order id and e-mail, the stored pending payment and the payment page on show |
| LahzaCheckout.CheckoutPage.LoadFromUrl | backend/staticfiles/black_friday/lahza_checkout.js:65-97 | the offer and checkout URL come from the query string; nothing else changes |
| LahzaCheckout.CheckoutPage.SubmitPayment | backend/staticfiles/black_friday/lahza_checkout.js:546-619 | the outcome is the submit checks; a missing offer is reloaded from the URL once the inputs exist; nothing else changes |
| LahzaCheckout.CheckoutPage.ReloadOffer | backend/staticfiles/black_friday/lahza_checkout.js:574-586 | an existing offer is kept; a missing one is loaded from the URL |
| LahzaCheckout.CheckoutPage.VerifyPayment | backend/staticfiles/black_friday/lahza_checkout.js:111-183 | success records the order id (reply's reference, else the callback's) and the stored, else replied, e-mail, clears the pending payment and shows success; a refusal shows `RefusalScreen` (a string error, message or default with the callback's reference, or the TypeError for a non-string with the URL's reference); a failed request shows the error with the URL's reference or 'Unknown'; the shown message is the friendly one |
| LahzaCheckout.CheckoutPage.RecordSuccess | backend/staticfiles/black_friday/lahza_checkout.js:142-159 | the order id and e-mail recorded, the pending payment cleared, the success page shown; the offer untouched |
| LahzaCheckout.CheckoutPage.ShowDeclined | backend/staticfiles/black_friday/lahza_checkout.js:825-838 | the declined page with the given reference and message; nothing else changes |
| PaymentPage.CardPrice | backend/static/payment/script.js:121-122 | the price is the value of the first run of digits in the price text, and missing exactly when the text has no digit |
| PaymentPage.AmountOr | backend/static/payment/script.js:127 | a found non-zero price is charged; a missing or zero price gives the plan's default, so the amount is positive |
| PaymentPage.PlanFromCard | backend/static/payment/script.js:118-149 | no card or an unrecognised title gives no plan; live trading is checked before bundle before VIP, each with its default price (330, 550, 370), always in ILS |
| PaymentPage.CardChargesPrintedPrice | backend/static/payment/script.js:118-149 | a recognised card whose price text shows a non-zero number, preceded by no digit, is charged exactly that number |
| PaymentPage.OfferTypeOr | backend/static/payment/script.js:257 | a plan's offer type is sent when present, else 'payment_page' |
| PaymentPage.InitializeBody | backend/static/payment/script.js:238-261 | the request carries the trimmed inputs, the chosen plan (or the default 330 ILS plan) and the source 'payment' |
| PaymentPage.DefaultPlanCharged | backend/static/payment/script.js:238-257 | with no plan chosen, 330 ILS is charged as a 'payment_page' offer |
| PaymentPage.CardPlanOfferType | backend/static/payment/script.js:118-149 | a recognised card's plan is sent with its own offer type, one of live_trading, bundle or vip_signals |
| PaymentPage.SubmitSpec | backend/static/payment/script.js:186-325 | the first failing field is reported and nothing is sent; otherwise the request is the plan's body, and the iframe opens exactly when the reply has success, a URL and a reference |
| PaymentPage.PaymentSession.constructor | backend/static/payment/script.js:1-18 | no plan chosen and no reference yet |
| PaymentPage.PaymentSession.ChooseCard | backend/static/payment/script.js:77-87 | the form opens exactly for a recognised card, whose plan becomes the current one; otherwise the plan is kept |
| PaymentPage.PaymentSession.ChooseMembership | backend/static/payment/script.js:90-101 | the current plan becomes the 1850 ILS educational membership |
| PaymentPage.PaymentSession.Submit | backend/static/payment/script.js:186-325 | the result is the submit specification for the current plan; an opened iframe records its reference, nothing else changes |
| PaymentPage.PaymentSession.Monitor | backend/static/payment/script.js:380-386 | no reference means no monitoring; otherwise the polling ends as specified, redirecting to the payment success page |
| PaymentPage.MessageReference | backend/static/payment/script.js:46-61 | only Lahza origins are heeded, and only payment_success or payment_complete messages with a truthy reference (or ref) verify it |
| PaymentPolling.SubmitOutcome | backend/static/payment/script.js:186-325 | a field error sends nothing; the iframe opens exactly when the fields pass and the reply has success, a URL and a reference, which is then monitored |
| PaymentPolling.FirstDecisive | backend/static/payment/script.js:391-425 | the index of the first paid, failed or cancelled reply, every reply before it undecided |
| PaymentPolling.MonitorSpec | backend/static/payment/script.js:380-441 | the polling ends paid exactly when the first decisive reply is paid and within sixty ticks; failure likewise; sixty undecided ticks time out; otherwise the popup's closing ended it |
| PaymentPolling.MonitorPayment | backend/static/payment/script.js:380-441 | without a reference nothing is polled; otherwise the ticks' loop ends as the specification says |
| PaymentPolling.UnreachableIsUndecided | backend/static/payment/script.js:420-425 | a network error at an undecided tick never moves the first decisive reply |
| PaymentPolling.UnreachableSameOutcome | backend/static/payment/script.js:420-425 | replacing an undecided reply by a network error never changes how the polling ends |
| PaymentPolling.AllUnreachableTimesOut | backend/static/payment/script.js:420-430 | sixty ticks of network errors end in the timeout |
| PackagesPage.PackageFor | backend/static/packages/script.js:121-149 | the trimmed title picks the 180 dollar strongest plan before the 150 LIVE plan before the 100 VIP plan, and an unrecognised title the 100 dollar default; always in USD |
| PackagesPage.PackageAmounts | backend/static/packages/script.js:125-149 | every plan charged is 100, 150 or 180 dollars |
| PackagesPage.LongKeywordsRedundant | backend/static/packages/script.js:131-137 | each title test holds exactly when its shorter keyword occurs, so the longer keyword adds nothing |
| PackagesPage.LiveHeadContained | backend/static/packages/script.js:137 | a title holding 'LIVE TRADING' holds 'LIVE' |
| PackagesPage.PackageRequest | backend/static/packages/script.js:257-279 | the request carries the trimmed inputs and the chosen plan, or the 100 dollar default, tagged offer type and source 'packages' |
| PackagesPage.ChosenPackageCharged | backend/static/packages/script.js:152 | a chosen card's plan is charged in dollars at 100, 150 or 180, tagged 'packages' (also lines 257-279) |
| PackagesPage.PackageSubmit | backend/static/packages/script.js:200-318 | the first failing field is reported and nothing is sent; otherwise the packages request is sent, and the iframe opens exactly when the reply has success, a URL and a reference |
| PackagesPage.CompletionReference | backend/static/packages/script.js:466-487 | only an accepted origin's completion message (type payment_success or payment_complete, or status success) yields a reference: its reference, else its ref, else the monitored one |
| PackagesPage.MessageReference | backend/static/packages/script.js:466-487 | the corrected filter: only https origins on lahza.io or its subdomains are heard, and their completion messages always yield a reference while one is monitored |
| PackagesPage.LookalikeOriginAccepted | backend/static/packages/script.js:468 | an origin that merely ends in 'lahza.io', such as https://evillahza.io, is heard as written and ignored once corrected |
| PackagesPage.CorrectedFilterNarrows | backend/static/packages/script.js:468 | every origin the corrected filter accepts the written one accepts too |
| PackagesPage.PackagesSession.constructor | backend/static/packages/script.js:1-12 | no plan, no reference, the popup closed, the iframe blank, no polling and no listener |
| PackagesPage.PackagesSession.ChoosePlan | backend/static/packages/script.js:116-155 | the card's plan is stored and the popup opens when its elements exist; nothing else changes (also lines 161-190) |
| PackagesPage.PackagesSession.ClosePopup | backend/static/packages/script.js:364-391 | the overlay closes and the iframe is blanked, and with them the polling and the listener stop (also lines 454-463, 492-502) |
| PackagesPage.PackagesSession.Submit | backend/static/packages/script.js:200-318 | the result is the submit specification for the stored plan; an opened iframe loads the checkout URL and starts polling and listening for its reference |
| PackagesPage.PackagesSession.StartMonitoring | backend/static/packages/script.js:394-490 | the reference is recorded, the iframe loads the URL, and the polling and the listener start |
| PackagesPage.PackagesSession.Poll | backend/static/packages/script.js:406-450 | the polling ends as the specification says; paid or failed closes the popup; the timeout stops only the polling and leaves the popup open |
| PackagesPage.PackagesSession.OnMessage | backend/static/packages/script.js:466-490 | without the listener nothing is heard; otherwise a completion that passes the corrected Lahza-domain filter (`MessageReference`, not the written `includes('lahza.io')`) yields its reference and stops polling, listening and the popup; anything else changes nothing |
| PackagesPage.GlobalMessageReference | backend/static/packages/script.js:41-60 | the page-wide listener acts only on payment_success or payment_complete from exactly https://checkout.lahza.io or https://lahza.io, yielding the message's reference, else its ref, and nothing when both are falsy |
| PackagesPage.GlobalHeardByPopupListener | backend/static/packages/script.js:41-60 | every message the page-wide listener acts on, the popup's listener (lines 466-487) would act on with the same reference |
| PackagesPage.BareCompletionOnlyForPopup | backend/static/packages/script.js:41-60 | a completion without reference or ref is ignored by the page-wide listener and verified by the popup's with the monitored reference |
| PackagesPage.PackagesSession.OnGlobalMessage | backend/static/packages/script.js:41-60 | heard whether or not a popup is monitored: an accepted completion closes the popup, whose observers stop polling and listening, and yields its reference; anything else changes nothing |
| PackagesPage.PackagesSession.Dispatch | backend/static/packages/script.js:38-38 | one message reaches the page-wide listener (registered at load) before the popup's (line 490); when the first closes the popup the observers remove the second before it is reached, so at most one verification follows; otherwise the popup's listener decides |
| PackagesPopup.PopupRequest | backend/staticfiles/packages/script.js:252-267 | the request carries the placeholder e-mail, empty names and mobile, no address, and the plan's amount, currency and name, tagged 'packages' |
| PackagesPopup.PopupRequestAnonymous | backend/staticfiles/packages/script.js:252-267 | whatever card is clicked, the request charges 100, 150 or 180 dollars to the placeholder e-mail with empty names |
| PackagesPopup.UrlReference | backend/staticfiles/packages/script.js:366-367 | an address's reference is its non-empty 'reference', else 'ref'; an unparsable address gives none |
| PackagesPopup.WatchSpec | backend/staticfiles/packages/script.js:355-378 | the watch ends with a non-empty reference, the first new address that carries one; repeats, blocked reads and unparsable addresses are skipped |
| PackagesPopup.FirstReference | backend/staticfiles/packages/script.js:355-378 | the first reading carrying a reference, and none exactly when no reading carries one |
| PackagesPopup.WatchFindsFirstReference | backend/staticfiles/packages/script.js:360-367 | starting from an address without a reference, skipping repeated addresses never loses a reference: the watch ends with the first one any reading carries |
| PackagesPopup.StartingReferenceIgnored | backend/staticfiles/packages/script.js:357-362 | a checkout address that already carries a reference is never acted on while the iframe stays on it |
| PackagesPopup.PopupSession.constructor | backend/staticfiles/packages/script.js:13-39 | the popup closed, the iframe blank, no loading page and no watch |
| PackagesPopup.PopupSession.ClosePopup | backend/staticfiles/packages/script.js:339-391 | the overlay closes, the iframe is blanked and the watch stops |
| PackagesPopup.PopupSession.OpenWithLoading | backend/staticfiles/packages/script.js:158-298 | without the overlay or iframe nothing is sent; otherwise the anonymous request is sent and the loading page revoked; success loads the checkout and watches from its address, anything else closes the popup |
| PackagesPopup.PopupSession.Watch | backend/staticfiles/packages/script.js:355-378 | the watch's result is the specification's; a found reference closes the popup and stops the watch, otherwise the popup stays as it was |
| PackagesPopup.PopupSession.OnMessage | backend/staticfiles/packages/script.js:42-60 | the reference to verify is the one the payment page's handler yields for the same message; a verified one closes the popup, anything else changes nothing |
| Cookies.PairValue | backend/staticfiles/new_landing/script.js:307-308 | the value is what follows `name=` in the trimmed pair, so the pair is exactly name, '=' and the value |
| Cookies.FirstTrue | backend/staticfiles/new_landing/script.js:305-310 | the index of the first true flag: every flag before it is false |
| Cookies.FirstNamed | backend/staticfiles/new_landing/script.js:305-310 | the index of the first pair named `name`, no pair before it named so |
| Cookies.GetCookie | backend/staticfiles/new_landing/script.js:303-312 | the result is null exactly when no pair is named `name`, and otherwise the first such pair's value |
| Cookies.CookieOfJoinedPairs | backend/staticfiles/new_landing/script.js:304 | for a header joined from pairs without ';', the value read is the first matching pair's |
| Cookies.PairValueWithin | backend/staticfiles/new_landing/script.js:307-308 | a value holds no character its pair does not |
| Cookies.CookieValueHasNoSemicolon | backend/staticfiles/new_landing/script.js:304-308 | a value read from the header never contains ';' |
| Cookies.CsrfPairValue | backend/static/new_pac/script.js:128 | the value taken is the text between the first and second '=', so it never holds '=', and undefined without '=' |
| Cookies.FirstCsrf | backend/static/new_pac/script.js:127-132 | the index of the first pair whose name before '=' is csrftoken, no pair before it so named |
| Cookies.CsrfFromCookie | backend/static/new_pac/script.js:125-134 | the token holds no '='; '' when no pair is named csrftoken |
| Cookies.PricingCsrfToken | backend/static/new_pac/script.js:125-134 | the loop returns the first csrftoken pair's value, else '' |
| Cookies.CsrfPairShape | backend/static/new_pac/script.js:126-128 | the pair csrftoken=a=b is one piece and already trimmed |
| Cookies.CsrfPairPieces | backend/static/new_pac/script.js:128 | split at '=', csrftoken=a=b gives csrftoken, a, then b's pieces |
| Cookies.CsrfValueCutAtEquals | backend/static/new_pac/script.js:125-134 | a token whose value holds '=' is cut there: csrftoken=a=b reads as a |
| Cookies.EliteCookie | backend/staticfiles/new_elite/elite.js:7-12 | the value never holds ';'; a header without `; name=` or naming it more than once gives '' |
| Cookies.EliteCookieOfSingle | backend/staticfiles/new_elite/elite.js:7-12 | a header holding only name=value gives the value back |
| Cookies.EliteCookieOfDuplicate | backend/staticfiles/new_elite/elite.js:7-12 | a header naming the cookie twice gives '', whatever the values |
| PricingPage.JsRem | backend/static/new_pac/script.js:303-333 | JavaScript's remainder: Dafny's for a non-negative dividend, and non-positive, with the dividend's sign, for a negative one |
| PricingPage.PricingCountdown.constructor | backend/static/new_pac/script.js:2-4 | every remembered part starts at -1, so the first tick rewrites all four boxes |
| PricingPage.PricingCountdown.Tick | backend/static/new_pac/script.js:6-60 | before the end only the parts that changed are rewritten and all four remembered, so a synced display shows exactly the remaining time; from the end on every box reads '00' and nothing is remembered |
| PricingPage.PricingSubmit | backend/static/new_pac/script.js:137-185 | no plan, then a short trimmed name, then a non-matching e-mail stop the submit, each exactly in its case; otherwise the request carries the trimmed fields, the plan, a null mobile exactly for an empty phone, source 'pricing' and ILS |
| PricingPage.PaymentModal.constructor | backend/static/new_pac/script.js:84-88 | no plan chosen and the modal hidden |
| PricingPage.PaymentModal.Open | backend/static/new_pac/script.js:91-113 | the plan is stored whatever the page has; the modal shows when its element exists |
| PricingPage.PaymentModal.Close | backend/static/new_pac/script.js:115-122 | the modal hides and the plan is forgotten |
| PricingPage.PaymentModal.Submit | backend/static/new_pac/script.js:137-185 | the outcome is the submit checks for the stored plan |
| PricingPage.ClosedModalAsksForPlan | backend/static/new_pac/script.js:91-143 | after closing, a submit only asks for a plan; the default opening is a chosen plan |
| PricingPage.NextIndex | backend/static/new_pac/script.js:303-309 | no index (NaN) exactly with no slides; from an index of -1 or more, next stays inside the slides |
| PricingPage.PrevIndex | backend/static/new_pac/script.js:333-339 | no index (NaN) exactly with no slides; from an index above minus the count, prev stays inside the slides |
| PricingPage.PrevUndoesNext | backend/static/new_pac/script.js:303-333 | inside the range, prev undoes next |
| PricingPage.NextUndoesPrev | backend/static/new_pac/script.js:303-333 | inside the range, next undoes prev |
| PricingPage.PrevAfterFarGoTo | backend/static/new_pac/script.js:333-365 | after goToSlide to a far negative index, prev leaves a negative index, shown as no slide |
| PricingPage.Advance | backend/static/new_pac/script.js:308-339 | a container's state moves by next or prev, keeps its count, and NaN stays NaN |
| PricingPage.Carousels.constructor | backend/static/new_pac/script.js:248-269 | the global index at 0 and no container state |
| PricingPage.Carousels.StateOf | backend/static/new_pac/script.js:271-280 | a known container's state is returned as it is; a new one starts at slide 0 of its count and is stored |
| PricingPage.Carousels.Step | backend/static/new_pac/script.js:283-340 | without a container the global index moves among three slides; otherwise only that container's (possibly new) state moves |
| PricingPage.Carousels.GoTo | backend/static/new_pac/script.js:342-371 | the index is taken unchecked, for the global carousel or for the one container |
| PricingPage.Carousels.Swipe | backend/static/new_pac/script.js:441-448 | a swipe over 75 pixels left goes to the next slide, right to the previous one, anything shorter changes nothing; an in-range index stays in range |
| PricingPage.Dedup | backend/static/new_pac/script.js:494 | the distinct sources, no repeats, the same set and no longer |
| PricingPage.DedupKeepingAllIsIdentity | backend/static/new_pac/script.js:494-495 | a deduplication that drops nothing changes nothing |
| PricingPage.CarouselImagesAreFirstThree | backend/static/new_pac/script.js:486-501 | the lightbox always gets the first three sources, repeats included: the deduplication never takes effect |
| PricingPage.Lightbox.constructor | backend/static/new_pac/script.js:503 | the index starts at 0 and the lightbox is hidden |
| PricingPage.Lightbox.Open | backend/static/new_pac/script.js:505-521 | only an index inside the images is taken, and the lightbox shows when its elements exist; otherwise nothing changes |
| PricingPage.Lightbox.Close | backend/static/new_pac/script.js:523-529 | the lightbox hides; the index stays |
| PricingPage.Lightbox.Clamp | backend/static/new_pac/script.js:547-561 | with elements and images, an index past the end goes to 0 and a negative one to the last image |
| PricingPage.Lightbox.Step | backend/static/new_pac/script.js:531-545 | with images the index moves forward or back modulo their number, and stays non-negative |
| PricingPage.Lightbox.Swipe | backend/static/new_pac/script.js:595-602 | a swipe over 75 pixels moves one image, anything shorter nothing |
| RamadanPhase1.RegistrationPayload | backend/staticfiles/ramadan/phase1.js:150-155 | the body is the three inputs with surrounding space removed, each found inside its input where its leading space ends, and the phase 'phase1' |
| RamadanPhase1.PayloadStable | backend/staticfiles/ramadan/phase1.js:150-155 | resubmitting what was sent sends it again unchanged |
| RamadanPhase1.ValidationText | backend/staticfiles/ramadan/phase1.js:196-202 | a field error exists exactly when e-mail, phone or name carries one, checked in that order |
| RamadanPhase1.FirstKeyText | backend/staticfiles/ramadan/phase1.js:202-206 | the first key's error exists exactly for a non-empty object or array |
| RamadanPhase1.ServerText | backend/staticfiles/ramadan/phase1.js:193 | the server's text comes only from a message or error field |
| RamadanPhase1.ServerTextNeverShown | backend/staticfiles/ramadan/phase1.js:193-206 | as written, a body with a message or error but no field error always shows its first key's error instead of the message |
| RamadanPhase1.ServerMessageHidden | backend/staticfiles/ramadan/phase1.js:193-206 | a rejection {success: false, message} alerts 'success: false' as written; the corrected text shows the message |
| RamadanPhase1.ErrorMessage | backend/staticfiles/ramadan/phase1.js:193-218 | the corrected alert: a body that is not JSON or is null gives the generic text; field errors win, then the server's message or error |
| RamadanPhase1.CorrectedAgreesElsewhere | backend/staticfiles/ramadan/phase1.js:193-206 | the corrected alert differs from the written one only on bodies with a message or error and no field error |
| RamadanPhase1.RegisterOutcomeOf | backend/staticfiles/ramadan/phase1.js:172-218 | registered exactly when the reply is OK and its body's success is truthy; otherwise the corrected alert |
| RamadanPhase1.RegistrationForm.constructor | backend/staticfiles/ramadan/phase1.js:122-139 | the form holds its three inputs |
| RamadanPhase1.RegistrationForm.Submit | backend/staticfiles/ramadan/phase1.js:140-219 | the trimmed inputs are sent; a registration clears all three inputs, a failure keeps them |
| RamadanPhase1.RegistrationForm.ClearIf | backend/staticfiles/ramadan/phase1.js:177-180 | the inputs are cleared exactly after a registration |
| RamadanPhase2.DigitsFor | backend/static/ramadan/phase2.js:46-56 | a positive distance shows its days, hours under 24, minutes and seconds under 60, padded, which add up to the distance's whole seconds |
| RamadanPhase2.CountdownTimer.Update | backend/static/ramadan/phase2.js:41-63 | without a container nothing changes; a positive distance shows the digits; otherwise the interval stops and the expired text shows |
| RamadanPhase2.CountdownTimer.constructor | backend/staticfiles/ramadan/phase2.js:26-40 | without a container nothing is shown and no interval runs; with one, the first update shows the digits or the expired text, and the interval starts even when the target has passed |
| RamadanPhase2.CountdownTimer.Destroy | backend/staticfiles/ramadan/phase2.js:107-111 | the interval stops and the display stays |
| RamadanPhase2.CountdownTimer.Run | backend/static/ramadan/phase2.js:37-62 | once a tick finds the target passed the display stays expired and the interval is gone; otherwise the last tick's digits show and the interval runs on |
| RamadanPhase2.FirstPassed | backend/static/ramadan/phase2.js:45-57 | the index of the first tick that finds the target passed, every tick before it still ahead |
| RamadanPhase2.SelectCard | backend/static/ramadan/phase2.js:150-155 | after a click exactly the clicked card is selected |
| RamadanPhase2.InternationalMobile | backend/static/ramadan/phase2.js:247 | the mobile sent always starts with '+': kept when it has one, else '+970' replaces a leading zero or goes in front |
| RamadanPhase2.InternationalMobileIdempotent | backend/static/ramadan/phase2.js:247 | normalising twice changes nothing more, and a leading trunk zero makes no difference |
| RamadanPhase2.NameSplitRoundTrip | backend/static/ramadan/phase2.js:245-246 | the first name, a space and the last name (when there is one) give back the trimmed name |
| RamadanPhase2.RamadanSubmit | backend/static/ramadan/phase2.js:215-253 | no chosen payment, then an empty trimmed field, stop the submit, each exactly in its case; otherwise the request carries the e-mail, the amount in ILS, the name split losslessly, the '+'-prefixed mobile and the offer, from source 'ramadan' |
| RamadanPhase2.NotOkText | backend/static/ramadan/phase2.js:257-268 | a body that is not JSON or is null gives its text, else the default; a JSON body gives String() of its first truthy error or message, of whatever type (an object reads '[object Object]'), else the default |
| RamadanPhase2.AlertText | backend/static/ramadan/phase2.js:289-291 | `error.message || default`: never empty, and a non-empty message is alerted as it is |
| RamadanPhase2.ObjectErrorAlertedAsObject | backend/static/ramadan/phase2.js:284-291 | an OK reply whose error is an object alerts '[object Object]', even when a message is present |
| RamadanPhase2.EmptyArrayErrorAlertsDefault | backend/static/ramadan/phase2.js:284-291 | an OK reply whose error is an empty array alerts the catch's default, since String([]) is empty |
| RamadanPhase2.InitOutcomeOf | backend/static/ramadan/phase2.js:255-296 | a redirect exactly for an OK reply with truthy success and checkout URL, storing the reply's reference with the e-mail and offer; an OK null body alerts the TypeError that reading its `success` throws; any other OK reply alerts String() of its first truthy error or message, else the default; a refused reply alerts `NotOkText` and a failed fetch its message, each replaced by the catch's default when empty |
| RamadanPhase2.CallbackOutcomeOf | backend/static/ramadan/phase2.js:307-338 | nothing happens without a reference; a payment is confirmed exactly when verification succeeds and the stored reference is the same; a refusal is reported exactly when a non-null body says so; a failed fetch or a null body is only logged |
| RamadanPhase2.RamadanSession.constructor | backend/static/ramadan/phase2.js:165-176 | no payment chosen; the stored pending payment as found |
| RamadanPhase2.RamadanSession.ChoosePayment | backend/static/ramadan/phase2.js:176-189 | the button's data becomes the chosen payment |
| RamadanPhase2.RamadanSession.CloseModal | backend/static/ramadan/phase2.js:192-208 | the choice is forgotten |
| RamadanPhase2.RamadanSession.Submit | backend/static/ramadan/phase2.js:211-297 | the request is sent exactly when the checks pass; a redirect stores its pending payment, anything else keeps storage |
| RamadanPhase2.RamadanSession.Callback | backend/static/ramadan/phase2.js:307-338 | the outcome is the callback's; a confirmed payment is removed from storage, nothing else is |
| RamadanPhase2.RedirectThenCallback | backend/static/ramadan/phase2.js:273-328 | after a redirect, a successful verification of the same reference confirms it and one of any other reference does not |
| WeekCountdown.EndOfWeek | src/components/CountdownTimer.tsx:8-14 | the default target is the Sunday one to seven days ahead at 23:59:59.999, so always after now and on a later day, and the last millisecond of its day |
| WeekCountdown.LastTimeLeft | src/components/CountdownTimer.tsx:26-36 | the state after a run of ticks is the initial one or a breakdown with hours under 24 and minutes and seconds under 60 |
| WeekCountdown.StateKeptAfterExpiry | src/components/CountdownTimer.tsx:29-36 | ticks after the target change nothing: the last value stays on screen, not zeros |
| WeekCountdown.Countdown.constructor | src/components/CountdownTimer.tsx:16-39 | the target is the given date, else the end of the week at mount, and the first calculation runs at once |
| WeekCountdown.Countdown.Calculate | src/components/CountdownTimer.tsx:26-36 | the state becomes the remaining time's breakdown while time is left, and is kept otherwise |
| WeekCountdown.Countdown.Run | src/components/CountdownTimer.tsx:39-40 | after the interval's ticks the state is the breakdown at the last tick that still had time left |
| WeekCountdown.Countdown.Shown | src/components/CountdownTimer.tsx:47-56 | four boxes of at least two digits each, exactly two for hours, minutes and seconds of a real breakdown |
| LandingPage.FormValue | backend/staticfiles/new_landing/script.js:220-224 | each field is trimmed, and '' when the form has no entry |
| LandingPage.MessageParts | backend/staticfiles/new_landing/script.js:225-229 | the message's parts are non-empty, one for each of notes, plan and e-mail that is given |
| LandingPage.JoinStartsWithFirst | backend/staticfiles/new_landing/script.js:230 | the joined message begins with its first part |
| LandingPage.ComposedMessageEmpty | backend/staticfiles/new_landing/script.js:225-230 | the composed message is empty exactly when notes, plan and e-mail all are |
| LandingPage.ComposedMessageSplits | backend/staticfiles/new_landing/script.js:225-230 | when no item holds a line break, splitting the message at line breaks gives back its parts |
| LandingPage.LandingCode | backend/staticfiles/new_landing/script.js:232-235 | the landing code is sent trimmed |
| LandingPage.PayloadOf | backend/staticfiles/new_landing/script.js:237-246 | the body has the trimmed name and phone, whatsapp equal to phone, null goal, address and city, the landing code, and the composed message or, when empty, the default one |
| LandingPage.BareFormSendsDefaultMessage | backend/staticfiles/new_landing/script.js:241 | a form with only a name and phone sends the default message |
| LandingPage.FailureText | backend/staticfiles/new_landing/script.js:289-298 | a failed reply's text is its detail, else its message, else the default; a body that is not a JSON object gives the default |
| LandingPage.CheckedPayload | backend/staticfiles/new_landing/script.js:248-251 | the form is sent exactly when the trimmed name and phone are both non-empty |
| LandingPage.ReplyStatus | backend/staticfiles/new_landing/script.js:262-267 | an accepted reply shows the received line and hides the error; a failure hides the success and shows its text, or the generic one |
| LandingPage.LandingForm.constructor | backend/staticfiles/new_landing/script.js:200-214 | the form holds its inputs and both status lines are hidden |
| LandingPage.LandingForm.Submit | backend/staticfiles/new_landing/script.js:215-275 | without a name or phone only the missing-fields error shows; otherwise the payload is sent and the reply's lines show, an accepted one resetting the form |
| LandingPage.LandingForm.ShowMissing | backend/staticfiles/new_landing/script.js:248-251 | only the error line changes, to the missing-fields text |
| LandingPage.LandingForm.ShowReply | backend/staticfiles/new_landing/script.js:253-267 | the lines follow the reply; an accepted registration resets the form |
| LandingPage.WithoutCommas | backend/staticfiles/new_landing/script.js:320 | no comma survives, and nothing grows |
| LandingPage.WithoutCommasAppend | backend/staticfiles/new_landing/script.js:320 | comma removal works piecewise over a concatenation |
| LandingPage.CommaIgnored | backend/staticfiles/new_landing/script.js:320 | a comma anywhere in the input makes no difference |
| LandingPage.TotalPips | backend/staticfiles/new_landing/script.js:316-325 | without the input, or for a NaN or zero parse, the total is 17782; otherwise the comma-free parse; never zero |
| EliteForm.Field | backend/staticfiles/new_elite/elite.js:20-27 | each value is trimmed, '' for a missing control |
| EliteForm.Payload | backend/staticfiles/new_elite/elite.js:18-28 | the body's six fields are trimmed, each '' when its control is missing |
| EliteForm.PayloadStable | backend/staticfiles/new_elite/elite.js:18-28 | submitting what was sent sends it again unchanged |
| EliteForm.StatusAfter | backend/staticfiles/new_elite/elite.js:38-47 | an OK reply shows the success text; a refusal its detail, else message, else the fixed rejection; a failed fetch its message; the status is never empty |
| EliteForm.BareRejection | backend/staticfiles/new_elite/elite.js:40-42 | a refusal without detail or message shows the fixed rejection text |
| EliteForm.PostsPerSubmit | backend/staticfiles/new_elite/elite.js:13-37 | without a token nothing is posted here; with one, each registered handler posts the same payload |
| EliteForm.DoublePostAsWritten | backend/staticfiles/new_elite/elite.js:1-52 | as written, a submit with a token posts the same registration twice, two identical payloads (also lines 54-107) |
| EliteForm.EliteFormPage.constructor | backend/staticfiles/new_elite/elite.js:7-12 | the token is read once, when the script runs; the inputs and status as found |
| EliteForm.EliteFormPage.Submit | backend/staticfiles/new_elite/elite.js:13-51 | one handler: without a token the native post goes ahead and nothing changes here; with one the payload is posted once, the status follows the reply and a success resets the form |
| EliteForm.EliteFormPage.ShowReply | backend/staticfiles/new_elite/elite.js:29-47 | the status follows the reply and a success resets the form |
| AssetsConfig.AssetsBase | backend/static/new_pac/assets-config.js:14-15 | the base is the set static URL, else '/static/', followed by 'new_pac/assets/', so it always ends in that directory |
| AssetsConfig.FindIndex | backend/static/new_pac/assets-config.js:63 | the index of the first entry with that id, no entry before it having it |
| AssetsConfig.FindById | backend/static/new_pac/assets-config.js:63 | no entry exactly when none has that id; otherwise the first entry that has it |
| AssetsConfig.ImageById | backend/static/new_pac/assets-config.js:62-65 | null exactly when no education entry has that id; otherwise the image of an entry with it |
| AssetsConfig.ContentByIndex | backend/static/new_pac/assets-config.js:73-75 | an entry exactly for an index inside the list, and then the entry at that index |
| AssetsConfig.LightboxMatchesContent | backend/static/new_pac/assets-config.js:27-70 | the lightbox lists the education entries' images, in the same order |
| AssetsConfig.IdsFollowIndexes | backend/static/new_pac/assets-config.js:34-75 | id k + 1 has the lightbox's k-th image, which is also the image of the entry at index k |
| AssetsConfig.UnknownIdHasNoImage | backend/static/new_pac/assets-config.js:62-65 | every id other than 1, 2 and 3 gives null |
| AssetsConfig.NamedImagesAreLightbox | backend/static/new_pac/assets-config.js:20-31 | the named images are the lightbox's three, in order |
| Clock.Breakdown | backend/static/black_friday/script.js:436-439 | the days, hours, minutes and seconds of a remaining time are in range (hours < 24, minutes and seconds < 60) and add back up to its whole seconds |
| Clock.HoursBreakdown | backend/static/black_friday/script.js:721-723 | the hours (unbounded), minutes and seconds of a remaining time have minutes and seconds < 60 and add back up to its whole seconds |
| Clock.BreakdownDeterminedBySeconds | src/components/CountdownTimer.tsx:31-34 | two remaining times with the same whole seconds show the same countdown |
| Clock.Weekday | src/components/CountdownTimer.tsx:11 | the day of the week is one of 0..6 |
| Clock.CurrentYear | backend/static/black_friday/script.js:302 | the current year is the one whose 1 January is at or before now and whose next 1 January is after now |
| Clock.November26InYear | backend/static/black_friday/script.js:303 | 26 November of a year falls inside that year |
| Clock.NextNovember26Ahead | backend/static/black_friday/script.js:305-307 | 26 November of the following year is always after now, so the fallback target is in the future |
| Text.Digits | backend/static/packages/script.js:224 | keeping only the digits of a mobile number yields only digits and never a longer string |
| Text.DigitsOfDigits | backend/staticfiles/black_friday/lahza_checkout.js:489 | a string of digits is unchanged by removing non-digits |
| Text.DigitsIdempotent | backend/static/payment/script.js:210 | removing non-digits twice is the same as once |
| Text.DigitsAppend | backend/staticfiles/black_friday/lahza_checkout.js:595 | removing non-digits distributes over concatenation |
| Text.TrimStart | backend/static/black_friday/script.js:479 | trimming the start leaves a suffix of the input that does not start with whitespace |
| Text.TrimSpec | backend/static/black_friday/script.js:479-481 | a trimmed value starts and ends with non-whitespace and occurs in the input right after the leading whitespace |
| Text.TrimIdempotent | backend/static/black_friday/script.js:479-481 | trimming twice is the same as once |
| Text.JoinSplit | backend/static/ramadan/phase2.js:245-246 | joining the pieces of a split with the same separator gives back the input |
| Text.SplitJoin | backend/static/packages/script.js:324 | pieces free of a one-character separator come back unchanged from a join and a split on it |
| Text.Pad2 | backend/static/black_friday/script.js:441-444 | a padded number has at least two characters, all digits, and exactly two below 100 |
| Json.JsOr | backend/staticfiles/black_friday/lahza_checkout.js:144 | the JavaScript or-operator is one of its operands and is truthy exactly when either operand is (also lines 325) |
| Json.PyOr | backend/config/lahza_service.py:92-125 | a Python `a or b` is one of its operands and is truthy exactly when either operand is |
| Json.OrText | backend/staticfiles/new_elite/elite.js:41-42 | the error text is the first truthy of detail and message as a string, else the fallback text |

## Left out

- I/O is out: the network (`fetch`, `requests`), redirects, the iframe and the `postMessage` transport, reCAPTCHA, `MutationObserver`, `IntersectionObserver`, alerts and the DOM's markup. Replies, inputs and element presence are parameters. The observer's only effect that matters (closing the popup stops polling and listening) is modelled as `ClosePopup`.
- `setInterval`/`setTimeout` scheduling is out. Each tick is a method call with the current time as a parameter, and intervals are flags that the methods set and clear. The three-second restore of the Ramadan phase 1 form after a registration (backend/staticfiles/ramadan/phase1.js:183-189) is not modelled.
- Local time is taken as UTC milliseconds with no daylight-saving shifts. The countdown arithmetic is over integer milliseconds, which matches the source's doubles only for realistic magnitudes.
- ExamViews.ScorePercentage: computes the integer percentage `(100*c)/n`. Python's `int((c/n)*100)` in backend/exams/views.py:72 can be one lower through rounding (29 of 100 gives 28).
- Text.IsSpace: approximates JavaScript's and Python's whitespace classes by the ASCII whitespace characters and the no-break space.
- ContactSerializers.PyIsDigit: covers the ASCII, Arabic-Indic, extended Arabic-Indic and full-width digits. Python's `str.isdigit` also accepts the other Unicode decimal digits and characters such as superscripts and circled digits, which the model treats as non-digits.
- FormRules.NameOk and the other length checks of the pages: the model counts code points, while JavaScript's `.length` counts UTF-16 code units, so a value with characters outside the Basic Multilingual Plane (emoji, for instance) is longer in the source than in the model.
- RamadanPhase2.NullSuccessReadText: the message of the TypeError raised for a null body is engine-specific; the model uses V8's wording.
- LahzaCheckout.NotAStringText: the message of the TypeError raised by `toLowerCase()` on a non-string refusal is engine-specific; the model uses V8's wording. `RefusalScreen` also assumes the declined page's message element exists; without it nothing calls `toLowerCase()`, nothing throws, and the non-string value is shown as text with the callback's reference.
- PackagesPage.PackagesSession.Dispatch: assumes the popup overlay exists, so closing the popup fires the mutation observers, and that they run (as microtasks) between the two listeners of one message, as browsers do for a message delivered by the event loop. Without the overlay the popup's listener is never removed and a completion both listeners accept would be verified twice.
- Text.Lower: maps ASCII letters only. Unicode case mapping (`toUpperCase`, `icontains`) is not modelled, so `icontains` is ASCII lower-case plus containment.
- Cookies.GetCookie: returns the raw value. `decodeURIComponent` is not modelled.
- `parseFloat` is a parameter wherever the pages use it. The profit calculator beyond `getTotalPips`, `easeOutCubic`/`animateValue` and the VIP counter percentage are floating point and are left out.
- `localStorage` holds integers and records. The pages only store integer strings and one JSON record.
- AssetsConfig.ContentByIndex: modelled for integer indexes only.
- Randomness is left out: the generated stars, the dust particles and the background effects.
- The persisted payment record and the verify/webhook views that call the Lahza client are not part of this model.
- Django plumbing is left out: ORM persistence (the tables are sequences of rows in a class), admin registrations other than `video_type`, urls, settings, migrations, the video serializers, the contacts view and the template views.
- AddVideosCommand.ImportFiles, ExamViews.ReplaceSubmissions: the loops run over local copies of the tables and write back once, so intermediate database states are not modelled.
- The file copying of the import command and all of `backend/manage_videos.py` and `backend/test_media.py` are left out. Only the name derivation and the skip logic are modelled.
- Phase 1's `CountdownTimer` (backend/staticfiles/ramadan/phase1.js:30-113) is phase 2's class without the container guard. The page constructs it only when the container exists (phase1.js:117-121), so it is modelled by `RamadanPhase2.CountdownTimer` with the container present and the constant `RamadanPhase1.RamadanStart` as its target.
- BlackFridayLegacy, BlackFridayPage.PreSaleTimer.constructor: the already-passed branch of `initializePreBlackFridayTimer` at start-up (backend/static/black_friday/script.js:313-346) is not modelled; the timer always starts with the banner shown and the interval running, and the first tick then hides the banner, drops the cached end time and starts the sale, writing '00' into the fields that the start-up branch leaves alone. The showing and hiding of sections is not modelled.
- PackagesPage.PackagesSession.Poll: requires that polling is on, because the interval's callback only exists while polling.
- PaymentPolling.MonitorPayment, PaymentPolling.MonitorSpec, PaymentPage.PaymentSession.Monitor, PackagesPage.PackagesSession.Poll: assume each status reply arrives before the next three-second tick. The source's interval callback is `async`: it counts the poll before awaiting the reply and checks the limit only after it, so with slower replies the ticks overlap, more than sixty requests can be sent, replies are acted on in arrival order, and an undecided reply can time the polling out while an earlier tick's decisive reply is still in flight. The sixty-tick bound and the first-decisive-reply order hold only for replies that arrive within one tick.
- PackagesPage.PackagesSession.OnMessage: uses the corrected origin filter `PackagesPage.MessageReference`. As written, backend/static/packages/script.js:468 also acts on completions from look-alike origins such as https://evillahza.io, stopping the polling, closing the popup and verifying; the model ignores them (see Findings).
- Not modelled as UI-only: `handleAutoFillPayment`, `showPage`, the language toggles and the animations.
- Not part of this model (event wiring and markup only): `src/App.tsx` and the React components other than `CountdownTimer.tsx`, `LahzaCallback.tsx`, the `newfeedback`, `new` and root `packages` scripts, `new_land`, `web`, `web copy`, `elite/js/site.js`, and the API client `src/api/client.ts`.

## Findings

| source | as written | input that shows it | evidently intended | confidence | as-written member | corrected member |
|---|---|---|---|---|---|---|
| backend/exams/forms.py:42-67 with backend/exams/models.py:9 | the phone field is declared unique, so the ModelForm's validation rejects a phone already stored and `save` never reaches its update branch | a second entry with phone 0599123456 after a first one with the same phone | a returning participant passes the form and `save` updates the stored row | not executed | ExamForms.ReturningParticipantRejected, ExamForms.ReturningParticipantExample | ExamForms.EnterExam |
| backend/static/packages/script.js:468 | the message handler accepts any origin whose text contains `lahza.io` | a message from origin https://evillahza.io | only the Lahza origins are accepted | not executed | PackagesPage.LookalikeOriginAccepted | PackagesPage.MessageReference, PackagesPage.CorrectedFilterNarrows, PackagesPage.PackagesSession.OnMessage |
| backend/staticfiles/ramadan/phase1.js:193-206 | the server's `message` is always replaced by the first key's error, because the last branch matches any non-empty object | a reply {success: false, message: "..."} shows "success: false" | the server's message is shown when no field error is present | not executed | RamadanPhase1.ServerTextNeverShown, RamadanPhase1.ServerMessageHidden | RamadanPhase1.CorrectedAgreesElsewhere |
| backend/staticfiles/new_elite/elite.js:1-52, 54-107 | two identical blocks each register a submit handler on the form, so one submit posts the registration twice | any valid submission with a CSRF token: both posts pass the contact serializer, which has no uniqueness rule, so two identical contacts are stored | one post per submit | not executed | EliteForm.DoublePostAsWritten | EliteForm.EliteFormPage.Submit |
