# VenteMoi back-end handlers and scaffolding scripts, modelled in Dafny

The system is a set of Firebase Cloud Functions behind the VenteMoi
marketplace, plus two Python scripts that scaffold Flutter screens and
features. Almost every handler reads Firestore documents, decides, and
writes. This project models the decision step of each handler and the name
and path derivation of the two scripts.

- `common.dfy` (`Common`): the shared vocabulary.
  - A Firestore document is a `map<string, Value>`. A missing field reads as `Undefined`.
  - A write holding `Undefined` is refused, as the admin SDK refuses it by default.
  - JavaScript truthiness, `||`, and day arithmetic on millisecond timestamps.
  - Decimal rendering and parsing of integers.
  - The first-occurrence `String.replace`.
- `voucher_reminder.dfy` (`VoucherReminder`): the daily voucher-expiry reminder sweep.
  - The three-tier first-match policy, with its cooldowns.
  - The per-voucher bookkeeping and the summary lists.
  - The reminder e-mail's variable parts.
  - The sweep itself is a method over an array of vouchers that updates the chosen ones in place.
- `sponsor_points.dfy` (`SponsorPoints`): the batch repair of sponsor wallets and the on-create grant of initial points.
- `banner_payment.dfy` (`BannerPayment`): activation of a weekly banner offer when a checkout session completes, and the nightly expiry sweep. The store is a class.
- `stripe_webhook.dfy` (`StripeWebhook`):
  - the Stripe webhook router and the checkout-completed handler;
  - the welcome gift voucher and the recurring-subscription request;
  - the `confirmPaymentSuccess` callable.
  The store is a class.
- `stripe_customer.dfy` (`StripeCustomer`): the guard chain that provisions a Stripe customer for a new customer document, the forced re-creation callable, and the key classification of the debug endpoint.
- `email_verification.dfy` (`EmailVerification`): the verification-mail template's interpolations, the send and resend flows with their logs, and the development test endpoint.
- `pascal_case.dfy`, `scaffold_paths.dfy`, `screen_scaffold.dfy`, `feature_scaffold.dfy`:
  - `to_pascal_case`, with an independent character-by-character reading proved equal to it;
  - POSIX `os.path.join` and Dart's resolution of a relative import;
  - the class, directory and file names the two scripts derive.

Firestore, Stripe, Firebase Auth and the `mail` queue are modelled as values and parameters:
- collections are sequences or maps;
- each answer of an outside service is a parameter (an `Option`, a `Result` or a flag);
- time is an integer number of milliseconds passed in as `now`.

### Behaviour worth knowing

- **Same-instant rerun.** The reminder sweep is not idempotent within a day: `!daysSinceLastReminder` also holds for 0 elapsed days, so a second run with no time passing re-sends every urgent and three-day reminder. Only the seven-day reminder is not repeated. `VoucherReminder.SameInstantRerun` states exactly this.
- **Bookkeeping on failure.** A voucher is marked as reminded even when its buyer or shop cannot be resolved: `sendReminderEmail` returns early or catches every error. The voucher is therefore marked as reminded whatever happened to the mail, and `VoucherReminder.Remind` does not depend on the buyer at all.
- **`confirmPaymentSuccess` not-found.** The `not-found` error for a user without an establishment is thrown inside the `try` block. It is caught there and rethrown as `internal`, and `StripeWebhook.Confirm` returns `Internal` in that case.

## Model

| member | source | states |
|---|---|---|
| VoucherReminder.DaysSinceLastReminder | functions/voucher-expiry-reminder.js:51-54 | null exactly when no reminder was ever sent; otherwise the floor of the elapsed whole days |
| VoucherReminder.DaysInWindow | functions/voucher-expiry-reminder.js:29-34 | for a voucher the query selects (active, expiring between now and now + 7 days), the days left lie in 0..7 |
| VoucherReminder.ChooseTier | functions/voucher-expiry-reminder.js:60-75 | first-match policy, each tier exactly when its window and the time since the last reminder allow it: never reminded gives urgent for d ≤ 1, three-day for 2..3, seven-day for 4..7; a previously reminded voucher never gets seven-day; urgent comes back after a day and three-day after three days; 1 or 2 elapsed days silence the three-day window; 0 elapsed days blocks neither urgent nor three-day; nothing beyond 7 days |
| VoucherReminder.FirstContactTier | functions/voucher-expiry-reminder.js:52-75 | a selected voucher never reminded always gets a reminder, and its tier is a function of the days left alone |
| VoucherReminder.CeilDaysMonotone | functions/voucher-expiry-reminder.js:48 | the ceiling day count never decreases as the expiry moves later |
| VoucherReminder.TierNeverRegresses | functions/voucher-expiry-reminder.js:60-75 | after a reminder, any later reminder of the same voucher is never seven-day and is at least as urgent as the first |
| VoucherReminder.SameInstantRerun | functions/voucher-expiry-reminder.js:52-53 | a second decision at the same instant repeats urgent and three-day reminders and drops only seven-day ones: the sweep is not idempotent within a day |
| VoucherReminder.Decide | functions/voucher-expiry-reminder.js:45-75 | a voucher the query does not select gets no reminder |
| VoucherReminder.Remind | functions/voucher-expiry-reminder.js:77-88 | an unchosen voucher is not written; a chosen one gets last-sent = now, its tier and the days left, whether or not its mail went out, and keeps every other field |
| VoucherReminder.ShopInfoFor | functions/voucher-expiry-reminder.js:126-152 | boutique id first, then the legacy shop-owner lookup only without a boutique id; a found establishment gives its name, or 'la boutique' when that is empty, and its conditions; a missing establishment keeps 'la boutique' and empty conditions; the name is never empty |
| VoucherReminder.FindShopById | functions/voucher-expiry-reminder.js:128-138 | the establishment found has the id asked for; none means no establishment has it |
| VoucherReminder.FindShopByUser | functions/voucher-expiry-reminder.js:139-151 | an establishment owned by the legacy shop id, or none when no establishment has that owner |
| VoucherReminder.ComposeReminder | functions/voucher-expiry-reminder.js:121-197 | addressed to the buyer; name defaults to 'Cher client'; value to 50 when missing or 0; the urgency banner and warning block appear iff urgent; conditions appear iff non-empty; an urgent subject says today iff d = 0 and tomorrow otherwise |
| VoucherReminder.SendReminderEmail | functions/voucher-expiry-reminder.js:108-203 | a mail is queued iff the buyer id names an existing user with an address and dispatch does not fail; it is then the composed reminder; never an error |
| VoucherReminder.ProcessVoucher | functions/voucher-expiry-reminder.js:46-89 | one loop iteration: the tier decided, the mail queued, and the voucher as written back |
| VoucherReminder.SendVoucherExpiryReminders | functions/voucher-expiry-reminder.js:38-90 | every voucher of the array becomes its reminded form; the three summary lists are the vouchers of each tier in order; the outbox is every mail sent |
| VoucherReminder.RemindedMembers | functions/voucher-expiry-reminder.js:64-74 | a voucher is in a tier's summary list iff it is in the sweep and that tier was chosen for it |
| VoucherReminder.Chosen | functions/voucher-expiry-reminder.js:77 | the vouchers a reminder is sent for are exactly those given a tier |
| VoucherReminder.SummaryPartition | functions/voucher-expiry-reminder.js:38-42 | each reminded voucher is in exactly one summary list, and the three lengths add up to the number of vouchers reminded |
| VoucherReminder.SweepStep | functions/voucher-expiry-reminder.js:45-90 | the summary lists and the outbox after one more voucher extend those before it by that voucher's own contribution |
| VoucherReminder.OutboxBounded | functions/voucher-expiry-reminder.js:77-78 | at most one mail per reminded voucher |
| VoucherReminder.OutboxComplete | functions/voucher-expiry-reminder.js:111-197 | when every buyer exists with an address and nothing fails, exactly one mail per reminded voucher |
| SponsorPoints.SponsorTypeId | functions/sponsor-initial-points.js:20-29 | none iff no user type is named 'Sponsor'; otherwise the id of a type with that name |
| SponsorPoints.Sponsors | functions/sponsor-initial-points.js:34-37 | exactly the users whose type is the sponsor type |
| SponsorPoints.FirstWallet | functions/sponsor-initial-points.js:46-53 | the first wallet of the user, or none when the user has no wallet |
| SponsorPoints.Granted | functions/sponsor-initial-points.js:58-68 | a granted wallet holds 100 points and is flagged as granted, keeping its owner, coupons and bank details |
| SponsorPoints.NewWallet | functions/sponsor-initial-points.js:72-90 | a created wallet has 100 points, 0 coupons, empty bank details and the granted flag |
| SponsorPoints.OpFor | functions/sponsor-initial-points.js:55-90 | at most one write per sponsor: a creation exactly when the sponsor has no wallet, and a grant only of the sponsor's first wallet when it holds no points |
| SponsorPoints.FixSponsorInitialPoints | functions/sponsor-initial-points.js:13-110 | without a sponsor type: 404 and no writes; otherwise the total counts the sponsors, the updated count the queued writes, and the wallets become the planned writes applied; a refused commit answers 500 and, the batch being atomic, writes nothing |
| SponsorPoints.QueueRepairs | functions/sponsor-initial-points.js:45-91 | the loop queues exactly the planned writes and counts them |
| SponsorPoints.RepairOutcome | functions/sponsor-initial-points.js:55-90 | after the commit, every existing wallet is its repaired form: set to 100 if it is a sponsor's first wallet with 0 or missing points, unchanged otherwise; one wallet is added per sponsor without one |
| SponsorPoints.RepairCreates | functions/sponsor-initial-points.js:72-90 | the wallets appended are new wallets for exactly the sponsors that had none, in order |
| SponsorPoints.UnwalletedSound | functions/sponsor-initial-points.js:72-73 | a wallet is created only for a sponsor that has none |
| SponsorPoints.UnwalletedComplete | functions/sponsor-initial-points.js:72-73 | every sponsor without a wallet gets one created |
| SponsorPoints.RepairKeepsOwners | functions/sponsor-initial-points.js:55-71 | no existing wallet changes owner or disappears |
| SponsorPoints.FixCountBounded | functions/sponsor-initial-points.js:94-104 | the updated count never exceeds the number of sponsors, which never exceeds the number of users |
| SponsorPoints.PlanEmpty | functions/sponsor-initial-points.js:94-97 | when no sponsor needs a write, nothing is queued, so nothing is committed |
| SponsorPoints.SettledWithWallet | functions/sponsor-initial-points.js:58-71 | after the fix, a sponsor that had a wallet needs nothing more |
| SponsorPoints.SettledWithoutWallet | functions/sponsor-initial-points.js:72-90 | after the fix, a sponsor that had no wallet needs nothing more |
| SponsorPoints.RepairIdempotent | functions/sponsor-initial-points.js:58-61 | re-running the fix after it committed plans no write at all |
| SponsorPoints.GrantTarget | functions/sponsor-initial-points.js:124-161 | a wallet is chosen iff the user id is set, the user and its type exist, the type is 'Sponsor', a wallet exists, it is not yet granted, and its points are exactly 0 |
| SponsorPoints.GrantInitialSponsorPoints | functions/sponsor-initial-points.js:116-177 | only the chosen wallet changes, to its granted form; no wallet is created and no error escapes |
| SponsorPoints.GrantOnce | functions/sponsor-initial-points.js:148-168 | a second grant changes nothing |
| SponsorPoints.MissingPointsTestsDiffer | functions/sponsor-initial-points.js:58-161 | a sponsor wallet with no points field is repaired by the batch fix but ignored by the on-create grant |
| SponsorPoints.FindUser | functions/sponsor-initial-points.js:127-132 | the user found has the id asked for; none means no such user |
| SponsorPoints.FindUserType | functions/sponsor-initial-points.js:138-145 | the type found has the id asked for; none means no such type |
| BannerPayment.AmountOf | functions/banner-payment.js:68 | the amount in euros is the cents total divided by 100; a missing total gives NaN |
| BannerPayment.CurrencyOf | functions/banner-payment.js:69 | the session currency when truthy, else 'eur' |
| BannerPayment.FindPending | functions/banner-payment.js:37-49 | the first pending offer carrying the session id, or none when no pending offer carries it |
| BannerPayment.BaseOffer | functions/banner-payment.js:52-59 | without a pending offer: the user and establishment from the metadata, a start date, and an end date 7 days after it |
| BannerPayment.SpecialOffer | functions/banner-payment.js:63-77 | the created offer has the base fields and the fixed fields; a fixed field always wins over a same-named base field |
| BannerPayment.FixedFieldsWin | functions/banner-payment.js:65-72 | the created offer is active, paid, shown, with priority 100, whatever the base held |
| BannerPayment.SessionFieldsWin | functions/banner-payment.js:66-70 | the created offer carries the session id, the amount in euros and the currency or 'eur' |
| BannerPayment.BaseDatesKept | functions/banner-payment.js:63-64 | the created offer keeps the base record's start and end dates |
| BannerPayment.ConfirmationMail | functions/banner-payment.js:111-175 | a confirmation is queued iff both dates can be formatted and a contact phone is present; it goes to that phone |
| BannerPayment.PaymentLog | functions/banner-payment.js:88-97 | a 'banner_payment_success' log with the amount in euros and the currency or 'eur' |
| BannerPayment.PaymentLogWritable | functions/banner-payment.js:88-97 | the log write succeeds iff the metadata carries both the establishment id and the user id |
| BannerPayment.Publish | functions/banner-payment.js:80-97 | the offer is added when writable, and then the confirmation mail and the payment log follow; a refused add changes nothing |
| BannerPayment.Mailed | functions/banner-payment.js:167-175 | one confirmation mail is appended exactly when it can be composed |
| BannerPayment.Logged | functions/banner-payment.js:88-97 | the payment log is appended exactly when it is writable |
| BannerPayment.ChosenBase | functions/banner-payment.js:32-59 | the pending offer wins when there is one; without one a base exists iff the start date is known |
| BannerPayment.Consumed | functions/banner-payment.js:45-47 | the matching pending offer is deleted; nothing is deleted without one |
| BannerPayment.Activation | functions/banner-payment.js:17-105 | nothing changes unless the session moves into 'complete' for the weekly banner product; otherwise the matching pending offer is consumed |
| BannerPayment.ActivationShape | functions/banner-payment.js:37-102 | at most one offer, one mail and one log are added; mail and log only after the offer; a new offer is the special offer built from the chosen base |
| BannerPayment.ActivationUsesPending | functions/banner-payment.js:37-82 | with a matching pending offer, it is deleted and becomes the base; if the add is then refused, the pending data is lost and nothing else is written |
| BannerPayment.ActivationWithoutPending | functions/banner-payment.js:52-59 | without a pending offer, the new offer ends 7 days after it starts; with no start date nothing happens |
| BannerPayment.ActivatedOfferFields | functions/banner-payment.js:63-77 | any offer activation adds is active, paid, priority 100, and carries the session id, amount and currency |
| BannerPayment.CompletedSessionIgnored | functions/banner-payment.js:21-23 | a session already 'complete' before the update triggers nothing |
| BannerPayment.DeactivatedFields | functions/banner-payment.js:207-211 | an expired offer becomes inactive with status 'expired' and keeps every other field |
| BannerPayment.Swept | functions/banner-payment.js:203-215 | the sweep maps each offer separately |
| BannerPayment.SweptExactly | functions/banner-payment.js:203-215 | exactly the active offers whose end date is strictly before now are marked; they become inactive and 'expired'; the others are unchanged; nothing expired remains |
| BannerPayment.QueueDeactivations | functions/banner-payment.js:201-215 | the loop fails iff some active offer has an end date set that is not a timestamp; otherwise it queues exactly the expired offers and counts them |
| BannerPayment.CommitSwept | functions/banner-payment.js:217-218 | committing the queued updates gives the swept offers |
| BannerPayment.ExpiredCount | functions/banner-payment.js:213 | the count never exceeds the number of offers |
| BannerPayment.SweepIdempotent | functions/banner-payment.js:194-215 | a second sweep at the same time finds nothing to deactivate and changes nothing |
| BannerPayment.ExpiryMonotone | functions/banner-payment.js:207 | an offer expired now is still expired later |
| BannerPayment.BannerStore.ProcessBannerPaymentSuccess | functions/banner-payment.js:17-105 | the store's new state is the activation of its old state |
| BannerPayment.BannerStore.DeactivateExpiredBanners | functions/banner-payment.js:185-229 | an unreadable end date, or a refused commit of a non-empty batch, throws and changes nothing; otherwise the offers become the swept offers and the count is reported |
| StripeWebhook.Webhook | functions/stripe-webhook.js:13-51 | a bad signature gives 400 and no writes; every verified event gives received, even when its handler throws; a completed checkout leaves the store as its handler left it, even when the handler threw; events other than checkout completion write nothing |
| StripeWebhook.CheckoutStore.StripeWebhook | functions/stripe-webhook.js:13-51 | the store's new state and response are those of the pure router |
| StripeWebhook.Checkout | functions/stripe-webhook.js:54-148 | a missing user id, or no establishment for it, returns without writes; no checkout-session document is created |
| StripeWebhook.FirstEstablishment | functions/stripe-webhook.js:68-77 | the first establishment of the user, or none when the user has none |
| StripeWebhook.SubscriptionType | functions/stripe-webhook.js:83-88 | 'annual' iff the purchase is first_year_annual, 'monthly' iff first_year_monthly, none for anything else |
| StripeWebhook.FirstYearUpdateValues | functions/stripe-webhook.js:89-101 | the update sets the subscription type as both status and payment option, activates the subscription, leaves temporary mode and does not touch the category slots |
| StripeWebhook.FirstYearUpdateWritable | functions/stripe-webhook.js:89-101 | the update succeeds iff the session has an id and a customer |
| StripeWebhook.FirstYear | functions/stripe-webhook.js:83-119 | the branch throws iff its update is not writable, and then writes nothing |
| StripeWebhook.FirstYearWrites | functions/stripe-webhook.js:89-119 | a writable first-year branch merges the update into the establishment and adds one welcome voucher |
| StripeWebhook.FirstYearSubscription | functions/stripe-webhook.js:110-119 | a subscription request is made iff needs_subscription is the string "true" and a price id is present |
| StripeWebhook.FirstYearCheckout | functions/stripe-webhook.js:83-107 | for a first-year purchase the establishment ends up with that subscription type active and temporary mode off |
| StripeWebhook.SlotsAfter | functions/stripe-webhook.js:120-126 | a falsy stored count, 0 included, counts as 2, giving 3; a truthy number is incremented |
| StripeWebhook.SlotCheckout | functions/stripe-webhook.js:120-129 | a category-slot purchase that is not first-year only bumps the slot count |
| StripeWebhook.OtherPurchaseCheckout | functions/stripe-webhook.js:120-129 | any other purchase leaves the establishments unchanged |
| StripeWebhook.PurchaseFirstYear | functions/stripe-webhook.js:83-120 | a first-year purchase takes the first-year branch, which excludes the slot branch |
| StripeWebhook.WelcomeVoucher | functions/stripe-webhook.js:151-167 | amount 50, type 'welcome', status 'active', one year of validity, and a code starting with "WELCOME-" |
| StripeWebhook.WelcomeCodesDistinct | functions/stripe-webhook.js:159 | vouchers created at different instants have different codes |
| StripeWebhook.TrialEnd | functions/stripe-webhook.js:184 | the trial ends one year after now, in whole seconds, rounded down |
| StripeWebhook.SessionDocId | functions/stripe-webhook.js:132 | the first "cs_" is removed when there is one; otherwise the id is unchanged |
| StripeWebhook.SessionDocIdFirstOccurrence | functions/stripe-webhook.js:132 | exactly the first occurrence of "cs_" is cut out, wherever it lies |
| StripeWebhook.SessionDocIdStripsPrefix | functions/stripe-webhook.js:132 | a "cs_..." id loses its prefix |
| StripeWebhook.MarkProcessed | functions/stripe-webhook.js:132-147 | only the user's existing session document may change; establishments, vouchers and subscriptions are untouched |
| StripeWebhook.SessionMarkedProcessed | functions/stripe-webhook.js:132-147 | after a successful purchase, an existing session document is updated and a missing one is not created |
| StripeWebhook.Confirm | functions/stripe-webhook.js:202-257 | unauthenticated without auth; internal when the user has no establishment; failures write nothing |
| StripeWebhook.ConfirmWrites | functions/stripe-webhook.js:233-246 | confirmation succeeds iff data is given; then the establishment has the requested type as status and payment option and one welcome voucher is added |
| StripeWebhook.ConfirmDefaultsMonthly | functions/stripe-webhook.js:236-241 | without a requested type the subscription is 'monthly' |
| StripeWebhook.CheckoutStore.HandleCheckoutSessionCompleted | functions/stripe-webhook.js:54-148 | the store's new state is the pure checkout handler applied to its old state |
| StripeWebhook.CheckoutStore.ConfirmPaymentSuccess | functions/stripe-webhook.js:202-257 | the store's new state and result are those of the pure callable |
| StripeWebhook.CheckoutStore.CreateWelcomeGiftVoucher | functions/stripe-webhook.js:151-167 | appends the welcome voucher and changes nothing else |
| StripeWebhook.CheckoutStore.CreateRecurringSubscription | functions/stripe-webhook.js:170-199 | records one subscription request with the trial end |
| StripeCustomer.CreateCustomer | functions/index.js:27-117 | at most one provider request, and none exactly when nothing is returned; a refused write leaves the document unchanged |
| StripeCustomer.NotConfiguredFirst | functions/index.js:40-49 | without a usable key, the document only gets an error record, before any other check |
| StripeCustomer.SkippedDocuments | functions/index.js:52-61 | TEST_ ids, documents without email and documents that already have a Stripe id are left unchanged with no request |
| StripeCustomer.CreatedCustomerStored | functions/index.js:63-95 | on success the stripeId and the stored customer data's id are the new customer's id, after exactly one request |
| StripeCustomer.FailureRecorded | functions/index.js:96-116 | on failure, an error record and stripeError = true are written and success is false |
| StripeCustomer.ForceCreate | functions/index.js:120-195 | unauthenticated is checked before the missing key; only a successful creation changes the store; at most one request |
| StripeCustomer.ForceReusesCustomer | functions/index.js:143-162 | an existing, retrievable stripeId is returned without creating anything |
| StripeCustomer.ForceStoresCustomer | functions/index.js:164-190 | otherwise a new customer is created and merged into the user's document |
| StripeCustomer.KeyPrefix | functions/index.js:203-205 | a configured key's own first 7 characters (the whole key when shorter), or "NON CONFIGURÉ" |
| StripeCustomer.KeyClassification | functions/index.js:203-212 | test iff the key starts with sk_test, live iff it starts with sk_live, never both; the prefix has at most 7 characters unless unconfigured |
| StripeCustomer.CustomerStore.CreateStripeCustomer | functions/index.js:27-117 | the customer document becomes the pure handler's document, and its requests are recorded |
| StripeCustomer.CustomerStore.ForceCreateStripeCustomer | functions/index.js:120-195 | the store becomes the pure callable's store, and its requests are recorded |
| EmailVerification.TemplateSlots | functions/email-verification.js:176-211 | the template interpolates the user name once and the link twice, in the button and in the fallback |
| EmailVerification.TemplatePositions | functions/email-verification.js:176-211 | the name and both links occur at their places in the rendered page |
| EmailVerification.UserName | functions/email-verification.js:258-270 | 'cher utilisateur' unless the user document exists with a truthy name; a failed lookup keeps the default |
| EmailVerification.Deliver | functions/email-verification.js:276-295 | one pending mail to [user email] and one log of the given type; no error |
| EmailVerification.Send | functions/email-verification.js:239-316 | success adds one mail and one log; a failure adds one error and no mail or log |
| EmailVerification.SendDelivers | functions/email-verification.js:250-295 | on success exactly one pending mail is queued, to the user, with the verification subject and the template filled in, and one 'verification' log is written |
| EmailVerification.SendFailureRecorded | functions/email-verification.js:299-315 | on failure one 'verification_email' error is logged and success is false |
| EmailVerification.Resend | functions/email-verification.js:322-416 | unauthenticated before any lookup; an already verified user gets success false and no mail; a failing account lookup records the 'resend_verification_email' error and ends in internal; anything but a resend writes no mail and no log |
| EmailVerification.ResendFailed | functions/email-verification.js:399-414 | a resend failure ends in internal with no mail and no log, after one 'resend_verification_email' error record with the message and no stack; with no address the record is refused and nothing is written |
| EmailVerification.ResendOutcomes | functions/email-verification.js:340-414 | an unverified user either gets the new-link mail and a 'verification_resend' log, or an error record and internal |
| EmailVerification.TestDefaults | functions/email-verification.js:431-432 | email defaults to test@example.com and name to Test User |
| EmailVerification.TestAccessBySecretOnly | functions/email-verification.js:425-429 | the page is served iff the secret is 'ventemoi2024', whatever the emulator flag |
| EmailVerification.TestPageDefaultName | functions/email-verification.js:431-436 | without a name the page greets Test User with the test link |
| EmailVerification.MailStore.LookUpUserName | functions/email-verification.js:258-270 | the name found is the default-aware user name |
| EmailVerification.MailStore.SendCustomVerificationEmail | functions/email-verification.js:239-316 | the outbox's new state and result are those of the pure send |
| EmailVerification.MailStore.ResendVerificationEmail | functions/email-verification.js:322-416 | the outbox's new state and result are those of the pure resend |
| PascalCase.PascalIsScan | scripts/epreyn_screen.py:6-11 | split-filter-capitalize-join equals the character-by-character reading: each letter or digit is upper-cased at the start of a run and lower-cased inside it, and every other character is dropped |
| PascalCase.PascalCharacters | scripts/epreyn_screen.py:8-11 | one output character per ASCII letter or digit of the name, only letters and digits, and "" for a name with none |
| PascalCase.NotIdempotent | scripts/epreyn_feature.py:6-9 | "a_b" gives "AB", which gives "Ab": the conversion is not idempotent |
| PascalCase.RunsNonEmpty | scripts/epreyn_screen.py:8-9 | after filtering, every part is a non-empty run of letters and digits |
| ScreenScaffold.Scaffold | scripts/epreyn_screen.py:14-27 | usage and exit status 1 iff the argument count is not one; otherwise the base directory is lib/screens/<lower name>_screen |
| ScreenScaffold.ScreenControllerClass | scripts/epreyn_screen.py:33-35 | the controller class is the screen class followed by "Controller" |
| ScreenScaffold.ScreenClassLength | scripts/epreyn_screen.py:33-34 | the screen class has one character per letter or digit of the name, plus "Screen" |
| ScreenScaffold.ScreenClassesAlnum | scripts/epreyn_screen.py:33-35 | both class names are ASCII letters and digits only |
| ScreenScaffold.CaseInsensitive | scripts/epreyn_screen.py:19 | names equal up to ASCII case scaffold the same screen |
| ScreenScaffold.ScreenFilesInSubdirs | scripts/epreyn_screen.py:66-67 | for a name without '/', the view lies in the created view directory and the controller in the created controllers directory |
| ScreenScaffold.ScreenImportResolves | scripts/epreyn_screen.py:41 | for a name without '/', the view's relative import reaches exactly the controller file written |
| FeatureScaffold.Scaffold | scripts/epreyn_feature.py:11-22 | usage and exit status 1 iff the argument count is not one; otherwise the base directory is lib/features/<lower name> |
| FeatureScaffold.FeatureClasses | scripts/epreyn_feature.py:27-29 | the view class has one character per letter or digit of the name, and the controller class is it followed by "Controller" |
| FeatureScaffold.FeatureClassesAlnum | scripts/epreyn_feature.py:27-29 | both class names are ASCII letters and digits only |
| FeatureScaffold.FeatureFilesInSubdirs | scripts/epreyn_feature.py:57-58 | for a name without '/', view and controller lie in the created view and controllers directories |
| FeatureScaffold.FeatureImportResolves | scripts/epreyn_feature.py:34 | for a name without '/', the view's relative import reaches exactly the controller file written |
| ScaffoldPaths.SubdirPaths | scripts/epreyn_screen.py:28-30 | one path per sub-directory created |
| ScaffoldPaths.SubdirsInsideBase | scripts/epreyn_screen.py:28-30 | each sub-directory path is the base directory, a '/' unless the base already ends with one, and the sub-directory's name |
| ScaffoldPaths.ImportReachesFile | scripts/epreyn_screen.py:41-67 | a "../<sub>/<file>" import written in <base>/<view> reaches <base>/<sub>/<file> as os.path.join builds it |
| Common.NatToStringRoundTrip | functions/stripe-webhook.js:159 | the decimal rendering of a timestamp parses back to it |
| Common.IndexOfFirst | functions/stripe-webhook.js:132 | the index found is the first occurrence of the pattern |

## Left out

- Time: `serverTimestamp()` and the separate `Date.now()` and `new Date()` calls in one handler are one instant `now`. Formatted dates (`toLocaleDateString`) are not modelled; only whether a date can be formatted matters.
- The HTML and CSS of every mail body are left out. Only the parts that vary are modelled: subject, name, value, shop, banner, warning and conditions for the reminder; the name and link slots of the verification mail.
- Amounts: `amount_total / 100` is an exact rational in euros (`Euros(cents)`); JavaScript floating point is not modelled.
- Logging (`console.log`/`console.error`) and `setTimeout` are left out. The message text of a thrown error is abstract.
- These failures of outside services are parameters: the user-name lookup of the verification mail, the `generateEmailVerificationLink` call, the Stripe signature check and Stripe calls, the lookups and mail of a reminder (`fails`), and the batch commits of the sponsor fix and the banner sweep (`commitFails`). A write refused because a field is `undefined` follows from the document itself (`Writable`). Firestore's limit of 500 writes per batch is one way for a commit to be refused and is not modelled apart from `commitFails`.
- The failure of the reminder's bookkeeping `update` (functions/voucher-expiry-reminder.js:81-88) is not modelled. It is rethrown (:99-102) and ends the sweep, leaving later vouchers unprocessed; the model always writes the update.
- The failure of the webhook's store writes (the establishment updates, the welcome-voucher `add` at functions/stripe-webhook.js:151-167, the session update) is not modelled apart from an `undefined` field. Such a failure would be swallowed by the webhook like any other error of its handler.
- Other store writes that fail for a reason other than an `undefined` field are not modelled; the model always performs them. In the source:
  - the on-create grant's wallet `update` (functions/sponsor-initial-points.js:162-166) is caught (:173-176), and the wallet stays as it was;
  - in the banner activation, a failing pending-offer `delete` (functions/banner-payment.js:49), offer `add` (:80-82) or log `add` (:88-97) is caught (:100-102). Everything written before it stays, and nothing after it is written;
  - in `confirmPaymentSuccess`, a failing establishment `update` or welcome-voucher `add` (functions/stripe-webhook.js:233-246) ends in `internal`;
  - in the verification mails, a failing `mail` or `email_logs` add (functions/email-verification.js:276-295, :372-391) goes to the catch. The catch records an error and answers `success: false` (first mail) or throws `internal` (resend);
  - in `createStripeCustomer`, a failing success `update` (functions/index.js:79-87) falls into the catch, which writes the error record;
  - in `forceCreateStripeCustomer`, a failing `set` (functions/index.js:176-184) ends in `internal`.
- Failing Firestore queries are not modelled: the sponsor fix's queries (which answer 500), the banner sweep's query, the on-create grant's reads (swallowed) and the payment confirmation's reads (rethrown as `internal`). Each handler is given the collections its queries return.
- BannerPayment.AmountOf: an `amount_total` that is a string, a boolean or a timestamp is NaN in the model. JavaScript's `/` would coerce a numeric string to a number, `true` to 1 and `false` to 0, and a timestamp through its `valueOf()` string.
- The top-level failure of the reminder query, which rethrows, is not modelled. The sweep is given the vouchers the query returns, and `Selected` states the query's filter.
- Concurrency: parallel or racing invocations and retries by the platform are not modelled. Each handler runs alone on the store it is given.
- Firestore identifiers are plain strings. Multi-segment paths and the rules Firestore applies to ids are not modelled.
- The one-time initialisation of the admin SDK and the Stripe client, and a failing `require('stripe')`, are left out. The Stripe key is a parameter; its absence or emptiness is what the handlers test.
- StripeWebhook.SlotsAfter: a stored count that is a map or a timestamp gives NaN in the model. JavaScript would append "1" to its string form (for a timestamp, the string its `valueOf()` returns). Numbers, strings, booleans and falsy values follow JavaScript's `+`.
- EmailVerification.Display: values other than strings, numbers, booleans, records, NaN, null and undefined interpolate as nothing.
- functions/email-verification-config.js is not part of this model. Its settings only change how the verification link is generated, and the generated link, or the failure to generate it, is a parameter.
- PascalCase.Upper, PascalCase.Lower: Python's `str.lower` and `str.capitalize` act on all of Unicode; the model changes only ASCII letters, so a non-ASCII name is not cased as Python would case it.
- ScreenScaffold.ScreenFilesInSubdirs, ScreenScaffold.ScreenImportResolves, FeatureScaffold.FeatureFilesInSubdirs, FeatureScaffold.FeatureImportResolves: stated for names without '/'. A name holding '/' makes `os.path.join` nest the files deeper, or replace the base directory when the name starts with '/', and the relative import then no longer matches.
- The scripts' file-system effects are not modelled: `os.makedirs`, writing the two Dart files, and the usage text printed before `sys.exit(1)`. Neither is the body of the generated Dart code beyond the import line and the two class names.
