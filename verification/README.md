# Verified core of the sales-analytics and campaign backend

This project models the stateful and combinatorial core of the backend in Dafny 4.11 and proves
what it keeps: who a campaign contacts and how often, what a reminder scan survives, what the
session store serves, how jobs end, and what the mining, ranking, rounding and text functions
mean. `dafny verify dfyconfig.toml` checks all of it.

## How it is built

Each area has the state as a datatype, each request or statement as a function from one state
to the next, lemmas over every run of those steps, and, where the source changes things in
place, a class or a loop proved equal to the functions. The functions in turn are characterised
by laws that do not mention them: counts over rows, ages in seconds, literal constants, what a
reader of a text finds.

| area | modules |
|---|---|
| campaign experiments | `CampaignModel` (tables, contact gate, drafts), `CampaignSteps` (create, export, send, close, the other contact paths), `CampaignHistory` (the invariant over runs), `CampaignTheorems`, `CampaignContacts`, `CampaignMeaning` (the requests in terms of the rows alone), `CampaignNumbers` (telephone numbers at the gate), `CampaignWitnesses` (runs that show the exceptions), `CampaignService` (the gate's loop and the class), `OfferText` (what a text says), `PhoneNumber` |
| daily reminder scan with crashes | `CycleScan` (machine, invariant and class), `CycleOutcome` (what an uninterrupted scan achieves) |
| market basket | `MarketBasket` (counting, pruning, the loops), `BasketMeaning` (the rules in terms of the baskets) |
| action list and expansion gaps | `GreedyCaps`, `PeerGaps` |
| robust median and deviation | `RobustCadence` |
| session store and retention | `StoreModel`, `StoreTheorems`, `RetentionTheorems`, `RetentionMeaning` (retention in seconds and per file), `SessionStore` (the class) |
| long jobs | `JobTable`, `JobRunner` (machine and class) |
| money text, settings text | `MoneyText`, `SettingsStore`, `Decimal` |
| shared vocabulary | `Prelude`, `Ranking` |

A campaign run is any finite sequence of creations, exports, sends, closings, messages of the
two other paths (session SMS and the cycle scan) and arbitrary changes to customers, opportunities,
offers and the opt-out register. Clocks, settings, the assignment of arms, the outcome of each
message, the outbox and the crash points are parameters of the steps, so every statement holds
for all of them. A request is atomic; in `CycleScan` and `JobRunner` the steps are the single
statements, and crashes, restarts and other threads come between any two.

## Where the code differs from its description

These are stated as lemmas, each with a condition under which the described behaviour does hold.

- The register stores numbers in normal form, and the session SMS and the scan hand the gate the
  number as it was typed in the sales file; the gate compares text. A registered number typed with
  a leading zero is sent a message unless the person's key is barred too (the run of
  `TypedNumberIsReached`), although lines 45-46 of the repository's own `README.md` promise the
  gate on every contact path. `GateHoldsIff` says exactly when nobody is reached who must not be;
  it includes the unreadable ledger, for which `load_gate` returns an empty gate. Campaign
  messages are not affected (`SendGoesToPermittedNumbers`).
- A preview stores rows with status SENT, and the guard against sending twice ignores `dry_run`.
  So a preview shuts out every later real message to those members, although the comment at
  `api/campaigns_api.py:488-491` says that only a successful send does (`PreviewBlocksRealSms`;
  the run is `PreviewThenNothing`). Whom a send addresses is `AddressedIff`.
- The fatigue window reads the exposure stamp, which is the first contact of a campaign and never
  moves. A member exported on day 0 and texted on day 20 is not recently contacted on day 25
  (the run of `SecondContactIsNotSeen`); the window sees exactly the first exposures
  (`FatigueSeesFirstExposures`).
- The export picks a member's row by value, the SMS by score, although the comment at
  `api/campaigns_api.py:790-792` calls them the same (the state of `RungsDiffer`; they are the same
  exactly under the condition of `SameRowIff`).
- After a real SMS without a discount to a member first contacted by an export, a later export
  writes a discount stamp that nobody was sent (the run of `ExportRewrites`), exactly under the
  condition of `ExportRewritesIff`.
- A discount placeholder written with blanks inside its braces is filled in by the template engine
  but missed by the substring test, so the discount is shown and not recorded, and without an
  approval the placeholder is sent as it stands (`BlankPlaceholder`, `RecordedIffShown`).
- The overdue list has one entry per customer and product, so one scan can claim and send two
  reminders to one customer; the dedupe reads the outbox before any claim (`TwinsIff`,
  `TwinsHappen`). Between scans the spacing holds regardless.
- The action list tests its limit after the append: a limit below 1 keeps one action
  (`LimitRespectedIff`).
- When a parquet write fails beside an older parquet, the new frame goes to a pickle that later
  loads ignore: it is served while cached and then replaced by the older one (`FallbackIsLost`,
  `CoherenceKeptIff`). The audit frames have the same weakness without the cache.
- A job marked as failed by the watchdog reopens when its worker, still alive, reports
  (`FailedReopensIff`, `WatchdogIsOverruled`); the watchdog's message stays in the error column of
  the finished job.
- A stored ladder is read without the limit of eight rungs that the setter enforces
  (`LadderRewritesIff`).

## Model

| member | source | states |
|---|---|---|
| CampaignHistory.RunKeeps | api/campaigns_api.py:124-231 | Over every run of requests the tables agree with the log of contacts: every exposure stamp is the first contact, every send row is unique, real SENT rows match accepted messages one to one, cost columns add up, rosters and members agree |
| CampaignHistory.ExportForm | api/campaigns_api.py:377-387 | An export logs one file entry per target in order; members outside the targets, all send rows, rosters and closing times stay (what it writes on a member: `ExportStamps`, `ExportExposes`) |
| CampaignMeaning.ExportAddresses | api/campaigns_api.py:351-367 | An export names exactly the campaign's treatment members whom no opt-out and no control arm excludes, in roster order, for a closed campaign too |
| CampaignMeaning.ExportStamps | api/campaigns_api.py:808-815 | For every member of every campaign, contacted before or never: the offer after an export is the rung of the top row if the member is a target, nothing is stamped yet and the first channel, if any, is not SMS; else it is as before |
| CampaignMeaning.ExportExposes | api/campaigns_api.py:380-385 | A target without a contact gets this export's time, date and channel as its first; any other member keeps its own, and all keep arm and value |
| CampaignMeaning.ExportMarks | api/campaigns_api.py:386-387 | The first export with a target dates the campaign; campaigns are otherwise unchanged, and so are opportunities, customers, register and send rows |
| CampaignMeaning.ExportRungIff | api/campaigns_api.py:788-815 | The rung of an export is bp iff the row that leads by value, then kind, has that discount, approved and not zero |
| CampaignMeaning.LinkedRowsMean | api/campaigns_api.py:772-785 | A member's rows are one for each link of that customer to a row that still exists, in link order |
| CampaignTheorems.AtMostOneRealSms | api/campaigns_api.py:488-519 | Over every run a member gets at most one accepted real SMS per campaign, and its single send row says "really sent" exactly when it got one |
| CampaignTheorems.SentRowIsFinal | api/campaigns_api.py:498-506 | A row with status SENT is not changed by any request, and no further message is attempted for that member |
| CampaignTheorems.SentRowStays | api/campaigns_api.py:604-628 | The same over every continuation of a run |
| CampaignTheorems.PreviewBlocksRealSms | api/campaigns_api.py:492-501 | A member recorded as SENT by a preview never gets a real message later, in any continuation |
| CampaignWitnesses.PreviewThenNothing | api/campaigns_api.py:488-501 | A run in which a preview is followed by a real send to a permitted treatment member and nothing is accepted |
| CampaignWitnesses.NoPreviewThenSms | api/campaigns_api.py:488-501 | The same run without the preview, in which the message is accepted |
| CampaignTheorems.AddressedIff | api/campaigns_api.py:477-519 | A send addresses exactly the first `limit`, in roster order, of the treatment members without a SENT row whom the gate permits |
| CampaignTheorems.ExposureIsFirst | api/campaigns_api.py:380-385 | In every reachable state a member has a stamp iff it was in an export or got an accepted real SMS; time, date and channel are those of the first such event |
| CampaignTheorems.ExposureNeverMoves | api/campaigns_api.py:630-638 | Once set, a stamp is the same after every later request; arms never change |
| CampaignTheorems.ContactCostIsSpent | api/campaigns_api.py:879-895 | After every run the cost read from the rows is the sum of the costs that all sends of the campaign reported, which is what its accepted real messages cost; it is unknown exactly when there was none |
| CampaignTheorems.SendWrites | api/campaigns_api.py:561-628 | A send leaves exactly one row per member addressed, skipped iff number or text is missing, failed iff a real send met an error, costing money iff really sent, with the offer only if sent; every other row is as before |
| CampaignTheorems.CountersMatchRows | api/campaigns_api.py:597-655 | The counters of the response are the numbers of addressed members whose row now has that status, the three reasons to skip together being the skipped ones |
| CampaignTheorems.TallyAddsUp | api/campaigns_api.py:561-600 | Sent, failed, without phone, without text and without approved offer add up to the drafts |
| CampaignTheorems.SendReport | api/campaigns_api.py:645-660 | A send's counters add up to the members addressed, and the cost it reports is the growth of the campaign's real spending |
| CampaignMeaning.SendHandsOver | api/campaigns_api.py:456-545 | A send that is no preview, confirmed and configured hands the panel one message per member addressed with a number and a text, in order, accepted unless the panel errs and billed if accepted; any other send hands over none |
| CampaignMeaning.SkipCounters | api/campaigns_api.py:524-529 | The three counters of skipped members: no valid number; a number but a discount nobody approved; a number, no such discount and no text |
| CampaignMeaning.SendCountsSegments | api/campaigns_api.py:588-619 | The reported segments are those of the rows really sent, and the reported cost is their price |
| OfferText.SegmentsMean | src/mktcore/execution/cost.py:39-46 | An empty text has no segment, up to 70 characters one, a longer one the least number of 67s that hold it |
| CampaignMeaning.DraftMeans | api/campaigns_api.py:733-735 | A draft has a number iff the stored one is valid, and is blocked iff its source holds the discount placeholder and the best row has no approved, nonzero discount |
| CampaignMeaning.CloseIsFinal | api/campaigns_api.py:854-864 | Closing sets the closing time and nothing else; in every later state of every run the campaign is closed and a send to it changes nothing |
| CampaignContacts.ContactsArePermitted | src/mktcore/contact/permission.py:84-99 | With a readable ledger a request only adds to the log, and no contact it adds, on any path and under any key of the person, is to somebody opted out or in the control arm of an open campaign at that moment, nor to a number spelled as the register spells it |
| CampaignContacts.ControlIsNeverContacted | src/mktcore/contact/register.py:110-125 | From the request that made a customer a control until the campaign is closed, no request contacts that customer |
| CampaignNumbers.RunNumbersOk | src/mktcore/contact/register.py:284-299 | In every reachable state the register and the customer table hold numbers in normal form only |
| CampaignNumbers.SendGoesToPermittedNumbers | api/campaigns_api.py:751-755 | Over every run, no campaign SMS is addressed to a number in the opt-out register |
| CampaignNumbers.GateHoldsIff | src/mktcore/contact/register.py:208-259 | Over every run, a session SMS or a scan reaches nobody opted out or held as a control, by key or by number however it is written, iff each such recipient it addresses has a fatigue key, or the ledger is readable and the person's key is barred or the number is typed in normal form |
| CampaignNumbers.TypedNumberIsReached | src/mktcore/execution/audience.py:39-48 | For every registered number, a run in which a recipient whose file has it with a leading zero is sent a message, the ledger being readable |
| PhoneNumber.SpellingsAgree | src/mktcore/identity/phone.py:50-99 | A valid number written with +98, 0098, 98, 0 or nothing before it has one normal form |
| PhoneNumber.NormalIsFixed | src/mktcore/identity/phone.py:77-99 | Normalising a normal form changes nothing |
| PhoneNumber.NormalIff | src/mktcore/identity/phone.py:54-99 | A text is the number e iff its digits and plus signs are one of the five spellings of a valid national number n and e is +98 and n |
| PhoneNumber.DigitsRead | src/mktcore/identity/phone.py:42-51 | Without an extension the digits are those typed, in order, in ASCII, Persian or Arabic script; anything else is ignored |
| PhoneNumber.ExtensionDropped | src/mktcore/identity/phone.py:49-51 | What follows "ext" does not count |
| PhoneNumber.PersianExtensionDropped | src/mktcore/identity/phone.py:49-51 | Nor does what follows the Persian word for it |
| PhoneNumber.MobileIff | src/mktcore/identity/phone.py:91-98 | A national number from 9 on is valid iff it has ten digits; none from 0 on or of another length is |
| CampaignContacts.DraftOffer | api/campaigns_api.py:711-761 | A draft carries an offer only if its text contains, at the place of the placeholder, a percentage that reads as that number of basis points, and the offer is the approved, nonzero one of the member's best-scored linked opportunity |
| CampaignMeaning.DraftPiece | api/campaigns_api.py:736-750 | Piece by piece, an unblocked text shows the literals, the customer's name or the general address, the approved percentage, and every other placeholder as written |
| OfferText.DiscountTextMeans | api/campaigns_api.py:737-738 | The discount text is digits without leading zeros, at most two decimals not ending in 0 and the percent sign, and reads as exactly the rung in hundredths of a percent |
| OfferText.RungsPrintApart | api/campaigns_api.py:737-738 | Two rungs never print alike |
| OfferText.RenderedPiece | src/mktcore/execution/audience.py:146-151 | Rendering is piece by piece: names and discounts are filled in, what has no value stays as written, and the discount reads as the rung |
| CampaignContacts.RecordedIffShown | api/campaigns_api.py:733-760 | The recorded offer is the one shown in the text, unless the only discount placeholders are written with blanks |
| CampaignWitnesses.BlankPlaceholder | api/campaigns_api.py:733-750 | A template with blanks in the placeholder's braces: the rung is shown and not recorded; without an approval the placeholder itself is sent |
| CampaignContacts.OfferStampsAreApproved | api/campaigns_api.py:808-815 | Whenever a request changes a member's offer stamp, the new one comes from an approved offer of a linked opportunity |
| CampaignContacts.SmsOfferStays | api/campaigns_api.py:639-643 | The rung of a real SMS stays the member's stamp through every continuation; so does "no discount" if that SMS was the first contact |
| CampaignContacts.ExportRewritesIff | api/campaigns_api.py:808-815 | After a real SMS, an export changes the stamp iff the member is exported, its top-value row has an approved rung, nothing is stamped yet and the first contact was an export |
| CampaignWitnesses.ExportRewrites | api/campaigns_api.py:808-815 | A run in which an export stamps a discount after a real SMS that showed none |
| CampaignContacts.SameRowIff | api/campaigns_api.py:788-796 | SMS and export speak of the same row of a member iff one row is the first by score and also the first by value and kind |
| CampaignWitnesses.RungsDiffer | api/campaigns_api.py:711-719 | A reachable state for any two such rows of one member in which the SMS would offer one discount and the export stamps another |
| CampaignContacts.SelectionIsBest | api/campaigns_api.py:133-165 | The selection has the limit's number of the matching permitted rows, or all if fewer, each as often as it occurs, by falling score and equal scores by number; no row left out goes before one selected |
| CampaignMeaning.WantedIff | api/campaigns_api.py:133-160 | A row is eligible iff it has a customer, has the order's status and kind, nobody its number denotes is opted out or a control, and neither the outbox nor a first contact of the last 14 days makes it recent |
| CampaignMeaning.CreateWrites | api/campaigns_api.py:193-224 | A creation selecting nothing changes nothing; another adds one open campaign under the next number, and for each customer of the selected rows one member with the assigned arm, the sum of that customer's rows and no stamp; all else stays |
| CampaignContacts.CreatedCampaign | api/campaigns_api.py:193-224 | A new campaign is open, its links are exactly the selected rows in order, its roster their distinct customers, each with one arm and no stamp, and the members' expected values add up to the selected rows' values |
| CampaignContacts.ValuesAddUp | api/campaigns_api.py:199-216 | Splitting the rows' values over their customers loses and duplicates nothing |
| CampaignContacts.JoinsIff | api/campaigns_api.py:154-176 | A customer joins iff a selected row is theirs, and is then neither opted out, nor a control, nor stamped within the window |
| CampaignContacts.FatigueSeesFirstExposures | src/mktcore/contact/register.py:128-154 | Over every run the window holds exactly the customers with a first exposure of some campaign in it |
| CampaignMeaning.RecentKeyIff | src/mktcore/contact/register.py:157-176 | A key is recent iff it is one of the outbox or denotes somebody who has one of those as sales-file key or was first contacted by a campaign in the last 14 days |
| CampaignMeaning.GateMeans | src/mktcore/contact/register.py:179-205 | The gate blocks exactly the keys that denote somebody opted out, by id or by the stored number, or held as a control of an open campaign, the registered numbers, and the recent keys |
| CampaignMeaning.ReasonIff | src/mktcore/contact/permission.py:84-99 | The reason is consent iff the key or number is opted out, control iff not that and the key denotes a control, fatigue iff neither and the key is recent |
| CampaignMeaning.ReachedIff | src/mktcore/contact/register.py:208-256 | A session SMS or a reminder reaches a recipient iff it is real, there is a number, the outbox keys do not hold the key and, with a readable ledger, the gate's rows exclude neither key nor number and no first contact of 14 days does |
| CampaignMeaning.SessionSkipsRecent | src/mktcore/contact/register.py:236-248 | With the ledger up a session SMS goes to nobody a campaign first contacted in the last 14 days, under whatever key |
| CampaignMeaning.RegisterMeans | src/mktcore/contact/register.py:284-299 | The register holds exactly the opt-outs that name a customer or a valid number, in normal form |
| CampaignWitnesses.SecondContactIsNotSeen | src/mktcore/contact/register.py:138-151 | A run with an export on day 0 and a real message on day 20 after which, on day 25, the window does not hold the member and the gate with that window permits the contact |
| CampaignService.ReasonMeans | src/mktcore/contact/permission.py:84-99 | The gate's ordered reasons, over its sets, give a reason exactly for the keys and numbers that are blocked |
| CampaignService.Partition | src/mktcore/contact/permission.py:138-158 | The gate's loop returns the allowed items and the blocked ones with their reasons, each in the given order |
| CampaignService.PartitionSplits | src/mktcore/contact/permission.py:150-158 | Every item is allowed or blocked, and an item is blocked with a reason iff that is the gate's reason for it |
| CampaignService.CampaignDesk.ValueByCustomer | api/campaigns_api.py:199-205 | The dictionary loop yields each customer once, with the values of their rows added up |
| CampaignService.CampaignDesk.CreateCampaign | api/campaigns_api.py:124-231 | Gate, limit, members and links written step by step end in the create step and keep the invariant |
| CampaignService.CampaignDesk.BestRows | api/campaigns_api.py:711-719 | The loop over the joined rows leaves each customer's best-scored row |
| CampaignService.CampaignDesk.SendDrafts | api/campaigns_api.py:684-762 | The drafts are those of the members, in order, from that row |
| CampaignService.CampaignDesk.PriorRows | api/campaigns_api.py:492-497 | The dictionary of prior rows maps each customer to their row of this campaign |
| CampaignService.CampaignDesk.PendingOnly | api/campaigns_api.py:498-501 | Pending are exactly the arm's members without a SENT row, in order |
| CampaignService.CampaignDesk.ExportCampaign | api/campaigns_api.py:339-389 | The export loops end in the export step, stamping exactly the members in the file |
| CampaignService.CampaignDesk.RecordSends | api/campaigns_api.py:556-643 | The loop that updates or adds a row per draft, stamps members and counts, ends in the sending step with its tally |
| CampaignService.CampaignDesk.SendSms | api/campaigns_api.py:439-528 | The whole request ends in the send step, reports its tally or refuses, and keeps the invariant |
| CampaignService.CampaignDesk.CloseCampaign | api/campaigns_api.py:854-864 | Closing ends in the close step and keeps the invariant |
| CampaignService.CampaignDesk.CampaignCost | api/campaigns_api.py:879-895 | The query loop returns the cost of the real SENT rows, or nothing without one |
| CycleScan.RunKeeps | api/scheduler.py:52-99 | Over every run of scans, clock ticks, other outbox rows and crashes between any two steps the protocol invariant holds |
| CycleScan.EveryDeliveryIsRecorded | api/scheduler.py:72-93 | Every delivered message has its own outbox row, written before as a real reminder to that customer; no row is sent twice |
| CycleScan.RemindersAreSpaced | api/persistence.py:732-743 | Two real reminders to one customer from different scans were claimed at least the dedupe window apart, crashes included |
| CycleScan.RemindersAreSpacedApart | api/scheduler.py:53-58 | With distinct audiences any two real reminders to one customer are that far apart |
| CycleScan.TwinsIff | api/scheduler.py:56-85 | At any step of a scan, real or preview, it has written two reminders to one customer iff the part of the screened list claimed so far names somebody twice |
| CycleScan.TwinsHappen | api/scheduler.py:52-85 | A run from the start in which that happens |
| CycleScan.TraceKeeps | api/scheduler.py:87-99 | Wherever the process dies during the imperative scan, the state left behind keeps the invariant |
| CycleOutcome.ScanDoesItsWork | api/scheduler.py:52-99 | An uninterrupted scan ends, having appended one row for each customer to remind (`ScanRemindsIff` says who that is), in order, and handed to the panel exactly the reachable of them if it is real, nobody if not |
| CycleOutcome.ScanRemindsIff | api/persistence.py:732-743 | From any state, an uninterrupted scan leaves a new reminder row for a customer iff the customer is in the audience, not barred, and no reminder row, preview or real, is younger than 7 * 86400 seconds; earlier rows stay |
| CycleOutcome.OtherRowsDoNotCount | api/persistence.py:737 | Outbox rows of other kinds never change whom a scan reminds |
| CycleOutcome.MessagesReach | api/scheduler.py:87-93 | The messages of a real scan go to the reachable customers to remind, in order |
| CycleScan.CycleScheduler.DedupePass | api/scheduler.py:53-58 | The list comprehension over the outbox is a run of dedupe steps, at every crash point |
| CycleScan.CycleScheduler.ClaimPass | api/scheduler.py:76-85 | The claiming loop is a run of claim steps, at every crash point |
| CycleScan.CycleScheduler.SendPass | api/scheduler.py:87-93 | The sending loop is a run of send steps, at every crash point |
| CycleScan.CycleScheduler.ReportPass | api/scheduler.py:94-99 | The status loop is a run of report steps, at every crash point |
| CycleScan.CycleScheduler.RunCycleScan | api/scheduler.py:36-109 | The whole scan, stopped anywhere, leaves the outbox and deliveries of a run of the machine |
| MarketBasket.TallyMeans | src/mktcore/analysis/market_basket.py:100-107 | The counting dictionary holds each key once in first-seen order with its multiplicity |
| MarketBasket.ItemCountMeans | src/mktcore/analysis/market_basket.py:103-105 | An item's count is the number of baskets containing it; all counts add up to the basket sizes |
| MarketBasket.PairCountMeans | src/mktcore/analysis/market_basket.py:106-107 | A pair's count is the number of baskets containing both; all counts add up to k(k-1)/2 over the sizes |
| MarketBasket.PairIsCounted | src/mktcore/analysis/market_basket.py:110-117 | The divisors of every pair rule are positive and no confidence exceeds 1 |
| MarketBasket.LiftSymmetric | src/mktcore/analysis/market_basket.py:115-118 | Lift does not depend on the side taken as antecedent |
| MarketBasket.RulesSwap | src/mktcore/analysis/market_basket.py:109-124 | The ranked pair rules are closed under swapping sides, with equal lift, support and count |
| BasketMeaning.PairRuleIff | src/mktcore/analysis/market_basket.py:109-122 | The listed pair rules are exactly those between two different products bought together with support * n = both, confidence * (baskets with the one) = both, lift * (with the one) * (with the other) = both * n, and support and lift reaching the thresholds |
| BasketMeaning.PairRulesAreRanked | src/mktcore/analysis/market_basket.py:124 | They are listed by falling lift, then by falling confidence, each exactly once |
| MarketBasket.TopProductsAreTop | src/mktcore/analysis/market_basket.py:148 | The top set has 300 products, or all if fewer; a counted item outside it is counted at most as often as any in it, and when as often was met later |
| BasketMeaning.KeepIff | src/mktcore/analysis/market_basket.py:156 | A product of a basket is kept iff it is a top one and fewer than fifteen top ones stand before it |
| BasketMeaning.MinCountMeans | src/mktcore/analysis/market_basket.py:147 | A count c is enough iff c >= 5 and 500 * (c + 1) > n |
| MarketBasket.BasketTriplesMean | src/mktcore/analysis/market_basket.py:155-159 | A basket's combinations are exactly the increasing triples of its kept items, each once |
| MarketBasket.TripleAtMostPair | src/mktcore/analysis/market_basket.py:156-163 | Each pair inside a counted triple is a counted pair of top items, at least as frequent |
| MarketBasket.PruningIsHarmless | src/mktcore/analysis/market_basket.py:161-168 | Any filter that keeps the triples reaching the minimum leaves the ranked rules unchanged |
| MarketBasket.PrunedEqualsNaive | src/mktcore/analysis/market_basket.py:138-182 | Mining with frequent-pair pruning gives the same rules, in the same order, as counting every triple |
| MarketBasket.GuardNeverFires | src/mktcore/analysis/market_basket.py:171-176 | For a triple reaching the minimum the pair guard never skips, every divisor is positive and every confidence is at most 1 |
| BasketMeaning.TripleRulesAreStrongest | src/mktcore/analysis/market_basket.py:138-182 | With 2000 baskets of 3 products on average, every listed triple rule qualifies in counts of baskets, lift at least 1.2, and at most 200 are listed, each once, by falling confidence, then lift; one that qualifies and is not listed is no stronger than any listed, and then 200 are listed; with less data there are none |
| MarketBasket.CountItemsAndPairs | src/mktcore/analysis/market_basket.py:100-107 | The nested counting loops compute the two tallies |
| MarketBasket.MinePruned | src/mktcore/analysis/market_basket.py:138-182 | The pruned loops, with their early exits, compute the mined rules |
| MarketBasket.AnalyzeBasket | src/mktcore/analysis/market_basket.py:100-127 | The analysis returns the ranked pair rules and the mined triples |
| GreedyCaps.KeptDominates | src/mktcore/analysis/actions.py:238-247 | After every prefix of the ranking the greedy list is at least as long as any selection within the caps |
| GreedyCaps.GreedyIsOptimal | src/mktcore/analysis/actions.py:236-247 | On a descending ranking no selection within the per-customer cap and the limit is worth more than the greedy one |
| GreedyCaps.ActionListIsBest | src/mktcore/analysis/actions.py:236-252 | The kept actions have the largest total value among all selections of the raw actions within cap and limit, and respect both |
| GreedyCaps.ActionListIsRanked | src/mktcore/analysis/actions.py:237-247 | The list is in order of falling value, equal values by customer |
| GreedyCaps.LimitCuts | src/mktcore/analysis/actions.py:238-247 | The early exit only cuts off the list kept without a limit, after one entry at the earliest |
| GreedyCaps.KeptAreFirst | src/mktcore/analysis/expansion_gap.py:213-218 | Without a limit exactly the first entries of each customer, up to the cap, are kept, in order |
| GreedyCaps.TrimIsRanked | src/mktcore/analysis/expansion_gap.py:214 | The trimmed gaps are in order of falling value |
| GreedyCaps.LimitRespectedIff | src/mktcore/analysis/actions.py:245-247 | The limit as written is respected iff it is at least 1 |
| GreedyCaps.SummaryAddsUp | src/mktcore/analysis/actions.py:254-260 | The summary has one row per kind; counts and values add up to the list |
| GreedyCaps.SummaryMeans | src/mktcore/analysis/actions.py:254-259 | The summary's rows are exactly the kinds that occur, each with the number and the total value of its actions |
| GreedyCaps.SummaryIsRanked | src/mktcore/analysis/actions.py:260 | The summary lists exactly those rows by falling total, each kind once |
| GreedyCaps.SelectActions | src/mktcore/analysis/actions.py:238-247 | The loop with the `seen` dictionary and its early exit keeps the greedy list |
| GreedyCaps.BuildActionList | src/mktcore/analysis/actions.py:236-261 | The list is the best selection numbered from 1, with its total and its summary by falling total |
| GreedyCaps.TrimIsBest | src/mktcore/analysis/expansion_gap.py:211-218 | The trimmed gaps have the largest total value among all selections with at most so many per customer |
| GreedyCaps.TrimGaps | src/mktcore/analysis/expansion_gap.py:212-220 | The loop with buckets returns the trim |
| PeerGaps.ComputeGaps | src/mktcore/analysis/expansion_gap.py:181-209 | The nested loops over groups, categories and non-buyers append the gaps in order |
| PeerGaps.GapsMean | src/mktcore/analysis/expansion_gap.py:183-209 | An entry is a gap iff some group of at least `min_peers` members has a buyer and a share of buyers, counted member by member, of at least `min_adoption`, the customer is a member who does not buy, and the value is the median of what the buyers spend |
| PeerGaps.EnoughMeans | src/mktcore/analysis/expansion_gap.py:192-194 | The share suffices iff the buyers number at least `min_adoption` times the members |
| PeerGaps.AmountsMean | src/mktcore/analysis/expansion_gap.py:192-196 | The amounts behind the median are the members' positive spendings, each as often as members spend it |
| PeerGaps.GapIsTypical | src/mktcore/analysis/expansion_gap.py:196-207 | Every gap is positive, and at least half of the buying peers spend that much or more, at least half that much or less |
| PeerGaps.GapResists | src/mktcore/analysis/expansion_gap.py:14-17 | A minority of buyers, a wholesale one say, cannot move a gap out of the range of the others |
| PeerGaps.GapsDistinct | src/mktcore/analysis/expansion_gap.py:183-209 | No customer is told of one category twice |
| PeerGaps.ExpansionIsBest | src/mktcore/analysis/expansion_gap.py:181-220 | From raw revenue to the returned list: no selection of the gaps within the per-customer number is worth more |
| RobustCadence.ComputeWeightedMedian | src/mktcore/analysis/cadence_robust.py:37-57 | The sort and the running-sum loop compute the weighted median, or nothing without a usable pair |
| RobustCadence.MedianIsLowerMedian | src/mktcore/analysis/cadence_robust.py:43-57 | The result is an input value with at least half of the weight at or below it and less than half below |
| RobustCadence.UsableMeans | src/mktcore/analysis/cadence_robust.py:43-47 | A pair is used as often as a position of both lists holds its finite value and positive weight; nothing else is used |
| RobustCadence.MedianMinimisesDeviation | src/mktcore/analysis/cadence_robust.py:37-57 | No real number has a smaller weighted sum of absolute deviations |
| RobustCadence.OrderDoesNotMatter | src/mktcore/analysis/cadence_robust.py:50-57 | Any reordering of the usable pairs gives the same result |
| RobustCadence.WholeWeightsMean | src/mktcore/analysis/cadence_robust.py:51-57 | With whole weights it is the lower median of the sorted list that repeats each value by its weight |
| RobustCadence.MedianResists | src/mktcore/analysis/cadence_robust.py:38-42 | While more than half of the weight lies in a range, so does the result, wherever the rest is moved |
| RobustCadence.MadMeans | src/mktcore/analysis/cadence_robust.py:60-66 | At least half of the finite values are within the deviation of their median, at least half at or beyond it; none exactly without a finite value |
| RobustCadence.MedianIsMiddle | src/mktcore/analysis/cadence_robust.py:65 | The plain median is the mean of the two middle values by rank, one value when the number is odd |
| RobustCadence.RankIsUnique | src/mktcore/analysis/cadence_robust.py:65 | Only one value has a given rank |
| RobustCadence.MadIsMedianDistance | src/mktcore/analysis/cadence_robust.py:60-66 | The deviation is the median of the distances, in either direction, of the finite values from their median, each as often as it occurs; none iff no value is finite |
| RobustCadence.MadResists | src/mktcore/analysis/cadence_robust.py:60-66 | While more than half of the finite values lie in a range, the deviation is at most its width |
| StoreTheorems.PutMeans | api/persistence.py:248-253 | After a put the cache holds at most six entries, the new one among them, and otherwise only what other slots held before, of which it loses nothing but the oldest, and that only when it was full and the slot new |
| StoreTheorems.CacheHolds | api/persistence.py:556-631 | Raw, clean and bundle frames are in the cache once saved or loaded; audit frames never are |
| StoreTheorems.RunHouses | api/persistence.py:265-307 | After every run a session has a directory iff it has a row, and files only then |
| StoreTheorems.CoherenceKeptIff | api/persistence.py:572-582 | From a store whose cache agrees with the disk, an operation leads to another iff it is not a save of the clean frame that falls back beside a different parquet |
| StoreTheorems.CoherentIff | api/persistence.py:255-257 | The cache agrees with the disk iff every load returns what a store without a cache would |
| StoreTheorems.LoadsAreTrue | api/persistence.py:561-631 | After every run at most six frames are cached, and loads return what an uncached store would: always for raw, bundle and audit frames, for clean without such a fallback |
| StoreTheorems.FallbackIsLost | api/persistence.py:601-614 | After such a fallback the new frame is served until the cache is lost, then the older one |
| RetentionMeaning.FileGoesIff | api/persistence.py:349-367 | For every file of every session: the raw file goes iff the session is unprotected and now - created > delete_days * 86400 or > raw_days * 86400, any other file iff unprotected and > delete_days * 86400, or > heavy_days * 86400 while not archived, a limit of 0 days never; what stays keeps its contents |
| RetentionMeaning.OtherFilesStay | api/persistence.py:321-386 | Retention creates no file and takes none of a session without a row |
| RetentionMeaning.RowsAfter | api/persistence.py:347-373 | The rows after a run are those of sessions protected or within delete_days, in their order, stamped as archived exactly where a heavy file went |
| RetentionMeaning.ReportMeans | api/persistence.py:342-384 | The counters are the numbers of raw files gone from staying sessions, of sessions newly archived, of sessions gone and of jobs gone |
| RetentionMeaning.JobStaysIff | api/persistence.py:375-382 | A job row stays iff it is queued or running, there is no limit, or its last update is at most jobs_days * 86400 seconds old |
| RetentionMeaning.ProtectedIff | api/persistence.py:338-340 | Protected are exactly the sessions with a queued or running job and the analysed one opened, or else created, last, the first row among equals |
| RetentionMeaning.YoungSessionsStay | api/persistence.py:349-361 | A session younger than every limit in force keeps row, files and cached frames |
| RetentionMeaning.LooserKeepsMore | api/persistence.py:330-361 | Raising or dropping limits takes no more files and no more rows |
| RetentionMeaning.OpenAndAnalyse | api/persistence.py:428-438 | Opening dates one session and nothing else; a fresh analysis marks it and clears its archive stamp |
| RetentionMeaning.OpeningProtects | api/persistence.py:403-410 | Opening an analysed session later than any other was used protects it |
| RetentionTheorems.ProtectedUntouched | api/persistence.py:338-354 | The session analysed and opened last and every session with a live job keep row, files and cached frames |
| RetentionTheorems.RetentionIsIdempotent | api/persistence.py:321-386 | A second run at the same clock changes nothing and reports zeros |
| RetentionTheorems.LoadsReturnLastSaved | api/persistence.py:556-631 | After every run a load returns the frame last saved and not deleted or pruned since: always for raw and bundle, for the others without a fallback beside a different parquet |
| SessionStore.PersistentStore.CachePut | api/persistence.py:248-253 | The assignment and the evicting loop put the entry |
| SessionStore.PersistentStore.CacheGet | api/persistence.py:255-257 | The lookup finds the entry of the slot, or nothing |
| SessionStore.PersistentStore.CacheDrop | api/persistence.py:259-262 | Exactly the session's entries leave, the others keep their order |
| SessionStore.PersistentStore.CreateSession | api/persistence.py:265-273 | A new session gets its directory and row |
| SessionStore.PersistentStore.DeleteSession | api/persistence.py:296-307 | Row, cached frames, files and directory go; reports whether the row existed |
| SessionStore.PersistentStore.SaveRaw | api/persistence.py:556-559 | Saving raw is the save step; it fails without the directory |
| SessionStore.PersistentStore.LoadRaw | api/persistence.py:561-570 | Loading raw is the load step |
| SessionStore.PersistentStore.SaveClean | api/persistence.py:572-582 | Saving clean is the save step, with the pickle fallback |
| SessionStore.PersistentStore.LoadClean | api/persistence.py:601-614 | Loading clean is the load step: cache, then parquet, then pickle |
| SessionStore.PersistentStore.SaveSideFrame | api/persistence.py:584-590 | Saving an audit frame is the save step, with the pickle fallback and without the cache |
| SessionStore.PersistentStore.LoadSideFrame | api/persistence.py:592-599 | Loading an audit frame reads parquet, then pickle |
| SessionStore.PersistentStore.SaveBundle | api/persistence.py:616-619 | Saving the bundle is the save step |
| SessionStore.PersistentStore.LoadBundle | api/persistence.py:621-631 | Loading the bundle is the load step |
| SessionStore.PersistentStore.LatestSessionWithAnalysis | api/persistence.py:403-410 | The query returns the analysed session opened last |
| SessionStore.PersistentStore.UnlinkHeavy | api/persistence.py:361-367 | The unlinking loop removes exactly the heavy files and says whether there was one |
| SessionStore.PersistentStore.RetainSession | api/persistence.py:345-373 | One row of the loop, with its counters, is the retention step of that row |
| SessionStore.PersistentStore.RunRetention | api/persistence.py:321-386 | The whole run ends in the retention step and returns its report |
| JobRunner.RunKeeps | api/jobs.py:42-70 | Over every interleaving of workers, watchdog, pruning and restarts the job invariant holds |
| JobRunner.JobsAreSettled | api/jobs.py:60-70 | In every reachable state progress is within 0 and 100; a done job is at 100 and holds what its function returned; a job whose worker ended or died is done or failed |
| JobRunner.RowMoves | api/persistence.py:634-693 | Column by column, what every step does to every row, whoever takes it: a store call changes only its own job's row, the watchdog and the restart only live rows; only a new submission adds one, queued at 0 |
| JobRunner.WorkerEnds | api/jobs.py:42-70 | A worker on its own leaves its job done with the function's value, failed with the exception's message or with the store's error, or abandoned, by how the function ends and which store calls work |
| JobRunner.ClampIsNearest | api/jobs.py:33-35 | The stored progress is the nearest value between 0 and 100, so the given one inside |
| JobRunner.RestartSettlesAll | api/persistence.py:684-693 | After a restart no job is queued or running, no worker is left, and finished rows are untouched |
| JobRunner.RestIsForever | api/jobs.py:46-59 | Once a job is done, or failed with its worker gone, its row never changes again, except that retention may remove it |
| JobRunner.FailedReopensIff | api/persistence.py:645-660 | A failed job becomes live again iff its own worker, still alive, starts or reports |
| JobRunner.WatchdogIsOverruled | api/main.py:525-531 | A run in which the watchdog fails a job that then ends as done with the watchdog's message |
| JobRunner.JobServer.UpdateJob | api/persistence.py:645-660 | The update sets the given columns of that job's row only, whatever its status |
| JobRunner.JobServer.MarkStaleJob | api/persistence.py:674-682 | The watchdog's update changes a live row only and says whether it did |
| JobRunner.JobServer.RecoverStaleJobs | api/persistence.py:684-693 | Recovery is the restart step |
| JobRunner.JobServer.SubmitJob | api/jobs.py:28-31 | Submitting adds one queued row at progress 0 |
| JobRunner.JobServer.ReportProgress | api/jobs.py:33-35 | A progress report is the clamped progress step |
| JobRunner.JobServer.RunJob | api/jobs.py:42-70 | The worker, whatever its function does, whichever store calls before the final block fail and whatever others do in between, is a run of the machine and leaves its job done or failed |
| MoneyText.RoundIff | src/mktcore/money.py:44-54 | The rounding is the only integer within a half of the input that is even on a tie; where that has more than 28 digits, the amount without its fraction |
| MoneyText.FitsDecimalIff | src/mktcore/money.py:51-54 | 28 digits suffice iff the amount lies strictly between -(10^28 - 1/2) and 10^28 - 1/2 |
| MoneyText.UnitsMean | src/mktcore/ingest/currency.py:26-36 | A toman is ten rials and a rial one, both ways; a quantity is stored in thousandths, a ratio in ten-thousandths; what is not a number stays unknown |
| MoneyText.RoundMonotone | src/mktcore/money.py:44-54 | Rounding keeps the order |
| MoneyText.RoundIsOdd | src/mktcore/money.py:44-54 | Rounding a negated amount negates the result |
| MoneyText.ScalingIsClose | src/mktcore/money.py:57-70 | Converted amounts differ from the exact product by at most a half, by less than one beyond 28 digits; unknown stays unknown and only unknown does |
| MoneyText.ScalingKeepsOrder | src/mktcore/money.py:80-99 | Conversion keeps the order of amounts |
| MoneyText.RialRoundTrip | src/mktcore/money.py:57-77 | Rials to display units and back is the identity |
| MoneyText.ScaleRoundTrip | src/mktcore/money.py:80-105 | Whole parts of any scale come back unchanged |
| MoneyText.QuantityRoundTrip | src/mktcore/money.py:80-105 | Thousandths of a quantity and basis points come back unchanged |
| MoneyText.SeparatorsEveryThree | src/mktcore/locale_fa.py:127-134 | Commas stand exactly before each group of three digits from the right |
| MoneyText.MoneyRoundTrip | src/mktcore/money.py:108-121 | Reading the text of an amount gives back the amount and its currency |
| MoneyText.MoneyTextSays | src/mktcore/money.py:108-121 | The text ends in the name of the unit and reads before it as the rials in tenths of a toman, or ten tenths each in rials; unknown is the dash |
| MoneyText.MoneyTextIsUnambiguous | src/mktcore/money.py:108-121 | Two amounts with the same text are equal, currency included; only an unknown amount prints as the dash |
| SettingsStore.LadderRoundTrip | src/mktcore/settings_store.py:161-210 | An accepted ladder reads back as the given rungs, distinct, ascending, at most eight, each in (0, 5000]; other settings are unchanged |
| SettingsStore.LadderAcceptedIff | src/mktcore/settings_store.py:196-205 | A ladder is accepted iff it has at most eight distinct rungs, all in range; a refused one changes nothing and an empty one removes the setting |
| SettingsStore.RefusalMeans | src/mktcore/settings_store.py:196-205 | A refusal says too many iff more than eight distinct rungs are given, else it names the smallest rung out of range |
| SettingsStore.ReadIsLadder | src/mktcore/settings_store.py:161-174 | Whatever text is stored, what is read is nothing or an ascending, distinct, bounded ladder |
| SettingsStore.ReadLadderIff | src/mktcore/settings_store.py:166-174 | A rung is read from a text iff every part that is not blank is a number and one is that rung, in (0, 5000] |
| SettingsStore.PaddedReads | src/mktcore/settings_store.py:170 | Blanks around a number and a plus sign before it do not matter |
| SettingsStore.UnderscoreReads | src/mktcore/settings_store.py:170 | One underscore between digits does not matter |
| SettingsStore.StrayUnderscore | src/mktcore/settings_store.py:170-172 | Two in a row, or one at an end, make it no number |
| SettingsStore.LadderRewritesIff | src/mktcore/settings_store.py:161-210 | A ladder that was read can be stored again, unchanged, iff it has at most eight rungs |
| SettingsStore.ThresholdsRoundTrip | src/mktcore/settings_store.py:239-264 | Thresholds are accepted iff sensible together with those not given, then read back exactly; refused ones change nothing |
| SettingsStore.ThresholdsRead | src/mktcore/settings_store.py:213-236 | Each threshold is the stored number, or 9000, 5000 and 3 where there is none; they are the user's iff one is stored |
| SettingsStore.ThresholdsStaySensible | src/mktcore/settings_store.py:213-264 | After any changes, accepted or refused, the thresholds in force satisfy 0 <= low < high <= 10000 and at least one line |
| SettingsStore.AppSettings.SetOfferLadder | src/mktcore/settings_store.py:177-210 | The setter, with its checks in order, ends in the ladder step |
| SettingsStore.AppSettings.SetFullPriceThresholds | src/mktcore/settings_store.py:239-264 | The setter ends in the threshold step |
| Decimal.ValueOfDigits | src/mktcore/settings_store.py:206-209 | Reading the printed digits of a natural number gives it back |

## Left out

- One business only; business resolution, HTTP routing, tokens, audit rows, notes and workbooks.
- A crash between the provider call and the commit of a campaign send: campaign requests are atomic, so at-most-once is claimed for requests that finish.
- The hash-based, stratified assignment of arms: any map from customers to arms.
- The SMS panel: its reply is an arbitrary set of customers whose message failed.
- The session SMS path and the cycle scan are one step with arbitrary recipients in the campaign machine; the scan's own steps are in `CycleScan`.
- Order of rows that SQL returns without ORDER BY: taken as row order; the order of rows inside the exported file.
- Templates are sequences of literals and placeholders: the regular expression that splits the text, and the stripping of blanks around a fallback message, are not modelled.
- Telephone numbers with digits of scripts other than ASCII, Persian and Arabic; blanks around a number in the file, which the cleaning strips.
- Campaign effect statistics, outcomes, reports, forecasting, segmentation, recommender, AI: library code or other state.
- `%g` prints six significant digits: a discount from 10000% on would print in another form; stored ladders end at 50%.
- The text column of the exported file, which fills an unapproved discount with a remark: only whom the file names and what it stamps are modelled.
- Floating point and NaN: values are integers or exact reals, and non-finite inputs are one constructor. The last `return` of `weighted_median` only serves rounding and is unreachable here.
- `int(0.002 * n)` is the whole quotient n / 500.
- How the basket frame and the revenue pivot are built, value tiers and peer labels: baskets are sorted lists of distinct items, peer groups are given nonempty lists.
- The branches of `build_action_list` that compute raw actions: their amounts are given, positive as its guard at src/mktcore/analysis/actions.py:137-138 requires.
- `pack_adjusted_gap`, `dispersion_ratio` and `evidence_level`: each is settled by one branch.
- `catch_up_missed_scan` and the scheduler's set-up: they only decide when a scan begins, which is arbitrary here.
- Concurrent scans and a clock that goes back.
- Frame attributes (`attrs`) lost in parquet; partial writes; a directory that cannot be removed; the store's lock.
- The session fields other than those retention reads.
- `int` on text with digits outside ASCII or blanks outside space, tab and line ends.
- The other settings (margin floor, capacity, data gate): easier instances of the same pattern.
- The Persian message texts of jobs are short constants.
