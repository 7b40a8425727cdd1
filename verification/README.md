# Slot generation and booking decisions for physiotherapy practices

A Dafny model of the appointment core of a multi-tenant physiotherapy
booking backend. For a practice and a date, a slot generator lays out the
day's 20-minute slots and classifies each one as treatment (bookable),
administration or house visit. A dispatcher picks the generator for the
practice. Two booking policies then turn the day's catalog into a booked
ticket or a callback ticket:

- the request policy asks for a callback on an empty day or on any day with a house visit;
- the voice shortcut books the day's first slot without any checks.

Around this core the model also covers:

- the two keyword intent classifiers;
- the table-driven dialog engine;
- the dashboard's status tallies and "today" filter.

Modules:

- `Optional`, `Schemas`: value types. Dates are proleptic ordinals, as in `date.toordinal()`. Times of day are minutes since midnight, and instants are minutes since day 0. So `datetime.combine` and `timedelta` are plain addition.
- `SlotGrid`: the back-to-back layout loop the two generators share.
- `KrebsNottuln`: the weekly plan and its generator.
- `Default20`: the flat 08:00–18:00 weekday generator.
- `Dispatcher`: `get_slots_for_practice`.
- `BookingFlow`: `process_booking_request` and `auto_book_from_voice`, plus system-level facts about them on the generated catalogs.
- `Text`: lower-casing and substring containment.
- `VoiceIntents` and `IntentEngine`: the two `detect_intent` functions.
- `Dialog`: `DialogEngine`.
- `Dashboard`: the dashboard's counting loop and its filter.

Parameters replace the source's nondeterministic and hidden inputs:

- ticket identifiers (`uuid4()`);
- creation instants (`utcnow()`);
- today's date (`date.today()`);
- the 30-minute generator, which is not part of this model, passed as a function `default30`.

The booking request policy is split in two. `DecideOnCatalog` applies the policy to a given catalog. `ProcessBookingRequest` first fetches the catalog from the dispatcher and then applies it. The voice shortcut is split the same way.

## Model

| member | source | states |
|---|---|---|
| Schemas.DateOfCombine | slots/physio_krebs_nottuln.py:117-118 | combining a date with a time of day and taking the date back gives the same date |
| Schemas.PracticeIdIsClosed | KI_Agent_intelaigent_backend/app/schemas.py:10-13 | there are exactly three practice identifiers, and their string values are pairwise distinct |
| Schemas.SlotTypeIsClosed | KI_Agent_intelaigent_backend/app/schemas.py:18-21 | there are exactly three slot types |
| Schemas.TicketStatusIsClosed | KI_Agent_intelaigent_backend/app/schemas.py:45-49 | there are exactly four ticket statuses |
| Schemas.SlotIsBookableByDefault | KI_Agent_intelaigent_backend/app/schemas.py:23-28 | a slot built without an explicit flag is bookable |
| Schemas.BookingRequestDefaults | KI_Agent_intelaigent_backend/app/schemas.py:33-40 | phone, e-mail and requested time are optional and absent unless given |
| Schemas.TicketModelDefaults | KI_Agent_intelaigent_backend/app/schemas.py:51-60 | ticket identifier, slot and message are optional and absent unless given |
| Schemas.CallbackTicketDefaults | KI_Agent_intelaigent_backend/app/schemas.py:65-72 | a callback ticket with no overrides has status callback, practice default-20, patient "Unbekannt (Voice)" and no phone |
| SlotGrid.Lay | slots/physio_krebs_nottuln.py:115-161 | slot i starts i durations after opening and lasts one duration; only treatment slots are bookable; each slot is typed by its start; the last slot ends by closing; one more slot would not fit |
| SlotGrid.GridIsContiguous | KI_Agent_intelaigent_backend/app/slots/default20.py:43 | each slot starts where the previous one ended, so slots are ascending and do not overlap |
| KrebsNottuln.IsInRanges | slots/physio_krebs_nottuln.py:95-99 | the ordered scan answers true exactly when the instant lies in some half-open range on that date |
| KrebsNottuln.Classify | slots/physio_krebs_nottuln.py:124-157 | a start instant is a house visit iff it lies in a house-visit range; administration iff it lies in an admin range and in no house-visit range; treatment iff it lies in neither |
| KrebsNottuln.GenerateKrebsSlots | slots/physio_krebs_nottuln.py:106-161 | no slots on a weekday without a plan; otherwise the grid from opening to closing; a slot is a house visit iff its start is in a house-visit range, and administration iff it is in an admin range and in no house-visit range |
| KrebsNottuln.WeeklyPlanIsWithinOneDay | slots/physio_krebs_nottuln.py:15-88 | the plan covers Monday to Saturday only, and every day opens before it closes, no later than 19:00 |
| KrebsNottuln.SundayHasNoSlots | slots/physio_krebs_nottuln.py:109-111 | Sunday yields an empty list |
| KrebsNottuln.KrebsSlotCount | slots/physio_krebs_nottuln.py:117-121 | on a planned day the count is (close − open) div 20; the first slot starts at opening; the last ends by closing; every slot falls on the requested date |
| KrebsNottuln.FridayDropsRemainder | slots/physio_krebs_nottuln.py:71-79 | Friday 14:00–18:30 gives 13 slots, the last ending at 18:20; the 10-minute remainder is dropped |
| KrebsNottuln.MondayAdminSlotCrossesRangeEnd | slots/physio_krebs_nottuln.py:136-145 | Monday's 10:50 slot is administrative and not bookable, although it ends at 11:10, past the range end |
| KrebsNottuln.MondayFirstSlotIsTreatment | slots/physio_krebs_nottuln.py:16-21 | the 08:00–08:30 admin range lies before opening and marks nothing; the first Monday slot, 08:30, is a bookable treatment slot |
| KrebsNottuln.TuesdayMorningIsHouseVisit | slots/physio_krebs_nottuln.py:30-39 | every Tuesday slot starting in [08:30, 14:00) is a house visit and not bookable |
| KrebsNottuln.TuesdayAfternoonIsBookable | slots/physio_krebs_nottuln.py:147-157 | Tuesday has 31 slots, and the last one, at 18:30, is a bookable treatment slot |
| KrebsNottuln.WednesdayAfternoonIsHouseVisit | slots/physio_krebs_nottuln.py:42-54 | every Wednesday slot starting in [15:00, 18:00) is a house visit and not bookable |
| KrebsNottuln.WednesdaySlotStraddlesHouseVisit | slots/physio_krebs_nottuln.py:123-124 | Wednesday's 14:50–15:10 slot is treatment although it runs into the 15:00 house-visit block; the 15:10 slot is a house visit |
| Default20.GenerateDefault20Slots | KI_Agent_intelaigent_backend/app/slots/default20.py:13-45 | no slots on Saturday or Sunday; on weekdays the 08:00–18:00 grid, and every slot is a bookable treatment slot |
| Default20.WeekdayHasThirtySlots | KI_Agent_intelaigent_backend/app/slots/default20.py:8-43 | a weekday has exactly 30 slots, the first starting at 08:00 and the last ending at 18:00; slots are contiguous, 20 minutes long and within the window |
| Dispatcher.SlotsForValue | KI_Agent_intelaigent_backend/app/slots/dispatcher.py:17-36 | the default-20, 30-minute and Krebs values each select their own generator's list; a value naming no practice selects the empty list |
| Dispatcher.GetSlotsForPractice | KI_Agent_intelaigent_backend/app/slots/dispatcher.py:17-33 | each practice gets exactly its generator's list, unfiltered and in order: default-20, the 30-minute generator, or Krebs |
| Dispatcher.UnknownPracticeFallsBack | KI_Agent_intelaigent_backend/app/slots/dispatcher.py:35-36 | a value naming no practice yields an empty list, not an error |
| BookingFlow.AnyHouseVisit | booking/booking_flow.py:45-46 | the scan answers true exactly when some slot of the day is a house visit |
| BookingFlow.FirstBookable | booking/booking_flow.py:55-56 | the scan finds a position exactly when some slot is bookable; that slot is bookable and no earlier one is |
| BookingFlow.DecideOnCatalog | booking/booking_flow.py:35-73 | empty day: "no slots" callback. Any house visit: house-visit callback, even with bookable slots. Otherwise a booked ticket on the first bookable slot, embedding the request unchanged. Otherwise a "no bookable slot" callback. Every callback carries the request's practice, name and phone. Every ticket holds the first bookable slot of a day without house visits |
| BookingFlow.ProcessBookingRequest | booking/booking_flow.py:19-33 | a ticket embeds the request and a bookable slot from the practice's catalog for the requested date; a callback carries the practice and one of the three reasons |
| BookingFlow.RequestedTimeAndEmailAreIgnored | booking/booking_flow.py:19-73 | changing the requested time or the e-mail changes nothing in the outcome except the embedded request |
| BookingFlow.BookedSlotIsTreatment | booking/booking_flow.py:54-65 | for the Krebs and default-20 practices, a booked ticket's slot is always a treatment slot |
| BookingFlow.KrebsHouseVisitDaysEndInCallback | booking/booking_flow.py:44-52 | at the Krebs practice every Tuesday and Wednesday request gets a house-visit callback, although those days have bookable slots |
| BookingFlow.KrebsSundayEndsInCallback | booking/booking_flow.py:35-42 | a Krebs Sunday request gets the "no slots" callback |
| BookingFlow.Default20BooksEightOClock | booking/booking_flow.py:54-65 | a default-20 request on a weekday books the 08:00 slot; at the weekend it gets the "no slots" callback |
| BookingFlow.AutoBookOnCatalog | booking/booking_flow.py:97-120 | empty day: the voice "no slot" callback with the given practice, name and phone. Otherwise a booked ticket on the day's first slot, whatever its type, embedding a request for the given practice, name, phone and date |
| BookingFlow.AutoBookFromVoice | booking/booking_flow.py:80-107 | the voice policy books exactly when the practice's catalog for the date is non-empty, and then on its first slot |
| BookingFlow.VoiceBooksBlockedSlotOnKrebsTuesday | booking/booking_flow.py:105-120 | on a Krebs Tuesday the voice policy books a house-visit, non-bookable slot, while the request policy asks for a callback |
| BookingFlow.VoiceOnDefault20BooksTreatment | booking/booking_flow.py:92-116 | for the default-20 practice the voice policy books exactly on weekdays, and then always a bookable treatment slot |
| Text.Lower | intents/voice_intent.py:12 | the result is as long as the input and holds no ASCII or Latin-1 capital; a text without such capitals comes back unchanged |
| Text.LowerIsIdempotent | intents/voice_intent.py:12 | lower-casing an already lower-cased text changes nothing |
| Text.Contains | intents/voice_intent.py:42 | the containment test is true exactly when the keyword occurs somewhere in the text |
| VoiceIntents.AnyKeyword | intents/voice_intent.py:42-49 | the ordered keyword test is true exactly when some keyword of the list occurs in the text |
| VoiceIntents.DetectIntent | intents/voice_intent.py:11-51 | booking iff a booking word occurs; cancel iff a cancel word occurs and no booking word; callback iff a callback word occurs and neither of the others; unknown iff no keyword occurs |
| VoiceIntents.DetectIntentIgnoresCase | intents/voice_intent.py:12 | the intent depends on the text only through its lower-cased form |
| VoiceIntents.NichtKommenIsBooking | intents/voice_intent.py:14-43 | a text containing "nicht kommen" is always booking, since "kommen" is a booking word and is checked first |
| VoiceIntents.LongBookingPhrasesAreRedundant | intents/voice_intent.py:14-23 | "termin machen" and "termin vereinbaren" never match where "termin" does not |
| IntentEngine.DetectIntent | KI_Agent_intelaigent_backend/intents/intent_engine.py:2-12 | one of four labels: booking iff "termin" occurs; callback iff "rückruf" occurs without "termin"; info iff "frage" or "info" occurs without the others; unknown otherwise |
| IntentEngine.ZurueckrufenContainsRueckruf | KI_Agent_intelaigent_backend/intents/intent_engine.py:7-8 | every text containing "zurückrufen" contains "rückruf", so the second test never decides |
| IntentEngine.DetectIntentIgnoresCase | KI_Agent_intelaigent_backend/intents/intent_engine.py:3 | the label depends on the text only through its lower-cased form |
| Dialog.NewEngine | KI_Agent_intelaigent_backend/dialog/engine.py:2-5 | a new engine starts in "START" with an empty context and the given table |
| Dialog.GetPrompt | KI_Agent_intelaigent_backend/dialog/engine.py:7-8 | the answer is empty exactly when the current state has no prompt or an empty one; otherwise it is that state's prompt |
| Dialog.PromptIgnoresContext | KI_Agent_intelaigent_backend/dialog/engine.py:7-8 | the prompt depends on the table and the current state only, never on the saved context |
| Dialog.Step | KI_Agent_intelaigent_backend/dialog/engine.py:10-25 | the table never changes. The answer is saved under the pre-step state's key iff the answer is non-empty and the state has a save key (an empty key included); no other context key changes. A given intent with an intent map moves to the mapped state, or stays for an unmapped intent. Otherwise the default next state is taken, else the state stays. The reply is the new state's prompt or "" |
| Dialog.StepRepliesWithPrompt | KI_Agent_intelaigent_backend/dialog/engine.py:25 | a step answers with the prompt a later `get_prompt` call would give in the state it moved to |
| Dialog.StepStaysInClosedTable | KI_Agent_intelaigent_backend/dialog/engine.py:8-23 | in a table whose targets are all states, every step can be taken and lands on a state from which the next step can be taken |
| Dashboard.DashboardStats | KI_Agent_intelaigent_backend/app/dashboard/router.py:13-34 | total is the number of tickets; each of open, booked, callback and closed is the number of tickets with that status; the four add up to the total |
| Dashboard.DashboardToday | KI_Agent_intelaigent_backend/app/dashboard/router.py:38-47 | a ticket is in the result exactly when it is in the input and was created on the given day |
| Dashboard.DashboardTodayDistributes | KI_Agent_intelaigent_backend/app/dashboard/router.py:42-45 | filtering a concatenation is concatenating the filtered parts, so the input order is kept |
| Dashboard.DashboardTodaySingle | KI_Agent_intelaigent_backend/app/dashboard/router.py:42-45 | a single ticket is kept exactly when it was created on the given day |

A ticket from the request policy never holds a blocked slot at the Krebs
and default-20 practices (`BookingFlow.BookedSlotIsTreatment`). The
30-minute generator is a parameter, so nothing is promised for that
practice. The voice shortcut gives no such guarantee: it books whatever
slot comes first, and on a Krebs Tuesday that is a house visit
(`BookingFlow.VoiceBooksBlockedSlotOnKrebsTuesday`).

Which practice the voice shortcut serves depends on the caller. The Twilio
handler (voice/twilio_handler.py:46-47) and the voice router
(KI_Agent_intelaigent_backend/app/voice/router.py:30-31) always book for
the default-20 practice, where every slot is a bookable treatment slot
(`BookingFlow.VoiceOnDefault20BooksTreatment`). The test endpoint
(voice/test_handler.py:43-66) maps the value "physio_krebs_nottuln" to the
Krebs practice and passes it on, so it can reach the Krebs-Tuesday
house-visit booking.

Determinism needs no lemma. The generators, the dispatcher and both policies are Dafny functions, so two calls with equal arguments give equal results. In particular, the weekly plan is a constant.

## Left out

- `dashboard_stats` and `dashboard_today` call `list_tickets()` with no arguments (KI_Agent_intelaigent_backend/app/dashboard/router.py:12 and :40). `list_tickets` requires a database session and a practice identifier (KI_Agent_intelaigent_backend/app/tickets/service.py:47-50), so both endpoints raise `TypeError` as written. The model therefore takes the ticket sequence as a parameter.
- Persistence, HTTP routing, Twilio and voice handlers, the inbox, the calendar client, the callback stores and the interactive dialog runner are out of scope. They are I/O and framework glue around the modelled functions.
- `generate_default30_slots` is not part of this model. The dispatcher and both policies take it as the parameter `default30`, and nothing is assumed about it.
- The dispatcher imports `app.slots.physio_krebs_nottuln`, and that copy is not part of this model. The Krebs generator modelled here is the top-level `slots/` copy. The booking flow imports top-level `schemas` and `slots.dispatcher` modules, which are not part of this model either; their `app/` copies stand in for them, and the files are treated as one pipeline.
- `uuid4()`, `utcnow()` and `date.today()` are parameters. The voice shortcut reads the clock twice, once for the embedded request and once for the ticket, so it takes two instants.
- Instants have minute resolution. Seconds and microseconds of `utcnow()` never affect any modelled outcome.
- Text.Lower: lower-casing covers ASCII and Latin-1 capitals only. Python's `str.lower` also maps other scripts, and a few characters map to more than one character (for example U+0130). Some characters outside Latin-1 lower-case to a keyword's letters. U+212A KELVIN SIGN becomes ASCII `k`, so "kommen" or "Kontakt" spelt with that sign matches a keyword in the source but not in the model.
- Dialog.Step: `step` looks a state up twice, and either lookup can raise `KeyError`. The lookup of the current state (engine.py:11) fails before anything changes. The lookup of the new state, inside `get_prompt` (engine.py:8, called at engine.py:25), fails after the context and the current state have already been updated. Here both lookups are preconditions instead: the current state and the state the step moves to must be in the table. State definitions hold strings only, where the source accepts any JSON value.
- Dashboard.DashboardStats: statuses are the closed four-member enumeration. A database row with any other status string would be counted in `total` only. That case is not modelled.
- The dispatcher's fallback branch cannot be reached through the closed enumeration. It is modelled by `Dispatcher.SlotsForValue`, which takes a raw string and compares string values the way a string enumeration does.
- `intents/intent_engine.py`, the word-boundary regex variant, is not modelled, because it depends on Python's regular-expression engine.
- `dashboard_summary` in `server.py` is not modelled, because it uses floating point, rounding and means.
