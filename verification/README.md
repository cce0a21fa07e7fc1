# Clinic system model

A Dafny model of the sequential core of a small clinic system. The clinic lets patients do four things:

- sign up and log in;
- book, cancel and reschedule appointments;
- consult a keyword-based diagnosis rule chain;
- buy medicines, one at a time, as a cart or as a stored prescription.

Pharmacists restock and read a map/group/reduce sales report. Doctors are rated.

The model has three layers.

- **The clinic store** (`backend/main.py`, coordinator side).
  - The module-level tables `MEDICINES`, `DOCTORS`, `USERS`, `APPOINTMENTS`, `MEDICINE_SALES` and `DOCTOR_RATINGS`, and the shared id counter, are the fields of class `ClinicStore.Store`. Each handler is a method of that class.
  - Every method keeps `Valid()`:
    - medicine ids are table positions;
    - user and appointment ids were handed out by the counter;
    - appointments are in increasing id order, each holds a slot its doctor offers, and no doctor slot is held twice;
    - every sale names a table position.
  - The pure parts are functions with their own lemmas. `StoreSpec` holds the stock check, the debit, the sales and the slot lists. `SalesSpec` holds the report. `ConsultRules` holds the diagnosis chain.
- **The gateway's backend picker** (`backend/gateway_fixed.py`, `get_alive_server`). It is class `Gateway.RoundRobin`, with the health probe as an oracle.
- **The client workflows of the React pages**, with the markup left out.
  - Each page's state cells are the fields of a class, and each handler is a method.
  - `api(path, method, body)` is an oracle:
    - a method takes the `Wire.Reply` the call resolves to, or the message it throws;
    - it appends the request it issues to the `sent` field.
  - `alert` and `navigate` record their argument in `lastAlert` and `navigatedTo`.
  - The JavaScript conversions the pages apply to form text are in `Wire`: `parseInt` (`ParseInt`), `Number` (`ParseNumber`), truthiness (`Truthy`) and `a || b` (`StringOr`).

Integers are unbounded, as in Python; the page numbers the model touches are integers. Strings are sequences of characters.

## Model

| member | source | states |
|---|---|---|
| ClinicStore.Store.constructor | backend/main.py:26-72 | The tables start as the 20 listed medicines and 15 listed doctors. Users, appointments, sales and ratings start empty, and the counter starts at 1. |
| ClinicStore.Store.Signup | backend/main.py:290-295 | Appends exactly one user with the next counter value as id and returns that id. The counter moves on by one and nothing else changes. |
| ClinicStore.Store.Login | backend/main.py:297-304 | Returns the id of the first user whose username and password both match. Returns 401 "Invalid credentials" exactly when no user matches. |
| ClinicStore.Store.Available | backend/main.py:326-335 | An unknown doctor gives 404 "Doctor not found". Otherwise the result keeps the doctor's offered slots in order (a subsequence). A slot is in it iff it is offered and no appointment with that doctor holds it. |
| StoreSpec.FreeSlots | backend/main.py:333 | The free slots are the offered slots in order, minus the booked ones. Each kept slot keeps its multiplicity. |
| StoreSpec.BookedSlots | backend/main.py:332 | A slot is booked for a doctor iff some appointment with that doctor holds it. |
| ClinicStore.Store.Book | backend/main.py:378-394 | Gives 404 for an unknown user, then 404 for an unknown doctor. Succeeds iff the slot is offered and not booked for that doctor, and otherwise gives "Time slot not available" with every table unchanged. On success it appends exactly one appointment, whose new id is above every existing one and whose symptoms and prescription are empty. |
| ClinicStore.BookKeepsSchedule | backend/main.py:386-391 | Appending a free, offered slot under the next id keeps the schedule invariant, including no double booking. |
| ClinicStore.Store.Cancel | backend/main.py:407-413 | An unknown id gives 404 with no change. Otherwise only the first appointment with that id is removed, the others keep their order, and the result is "Appointment canceled". |
| ClinicStore.RemoveKeepsSchedule | backend/main.py:411 | Removing one appointment keeps the schedule invariant. |
| ClinicStore.RemoveDropsOnlyThatId | backend/main.py:408-411 | Since ids are increasing, the remaining appointments are exactly those with a different id. |
| ClinicStore.Store.Reschedule | backend/main.py:426-436 | An unknown appointment gives 404. The move succeeds iff the new slot is offered by the doctor and held by no appointment of that doctor, itself included. Moving to the appointment's own current slot therefore fails. On success only that appointment's slot changes. On failure nothing changes. |
| ClinicStore.MoveKeepsSchedule | backend/main.py:432-434 | Moving an appointment to a free, offered slot keeps the schedule invariant. |
| ClinicStore.Store.Consult | backend/main.py:455-532 | An unknown appointment gives 404 with no change. Otherwise the result is the diagnosis of the lower-cased, space-joined symptoms. The symptoms and the prescription are written into exactly that appointment. |
| ClinicStore.ConsultKeepsSchedule | backend/main.py:527-528 | Writing symptoms and a prescription into an appointment keeps the schedule invariant. |
| ConsultRules.DiagnoseIsFirstMatch | backend/main.py:459-515 | The if/elif chain equals a first-match search over the table of 13 rules, in the chain's order, with the General Checkup fallback. |
| ConsultRules.Diagnose | backend/main.py:459-515 | The diagnosis of a symptom text: the chain run on which keywords occur in it. What it gives is stated by DiagnoseIsFirstMatch and the rule lemmas below. |
| ConsultRules.DiagnoseBy | backend/main.py:459-515 | The if/elif chain over keyword occurrence. EarlyRulesFire and LateRulesFire tie each branch to its table rule. |
| ConsultRules.FirstFiringRuleWins | backend/main.py:459-512 | The first rule with an occurring keyword decides the diagnosis, whatever later rules would say. |
| ConsultRules.NoRuleFires | backend/main.py:513-515 | When no keyword occurs, the fallback is given. |
| ConsultRules.AnyOccursIff | backend/main.py:459 | A rule fires iff one of its keywords occurs. |
| ConsultRules.EarlyRulesFire | backend/main.py:459-488 | The first seven table rules fire exactly on the keywords of the first seven branches. |
| ConsultRules.LateRulesFire | backend/main.py:489-512 | The last six table rules fire exactly on the keywords of the last six branches. |
| ConsultRules.PrescriptionsInCatalog | backend/main.py:459-515 | With at least 18 medicines, every diagnosis prescribes at least one line. Every line names a table position and has quantity at least 1. |
| ConsultRules.RulesPrescribeWithin | backend/main.py:459-515 | Every rule's prescription, and the fallback's, lies within a table of at least 18 medicines. |
| ConsultRules.FirstMatchAmong | backend/main.py:459-515 | The first-match answer is the fallback or the diagnosis of one of the rules. |
| ConsultRules.PainKeywordsShadowed | backend/main.py:469-509 | Text containing "chest pain", "stomach pain", "bone pain" or "joint pain" is always diagnosed Fever, Common Cold or Headache/Pain, because the Headache/Pain rule tests "pain" before any rule that names those keywords. |
| ConsultRules.ChestPainIsHeadache | backend/main.py:469-489 | The single symptom "chest pain" gives Headache/Pain with medicine 1 ×2, not Hypertension. |
| ConsultRules.InfectionNeverBacterial | backend/main.py:473-497 | "infection" is caught by the Throat Infection rule, so Bacterial Infection is never the answer for it. |
| ConsultRules.ContainsTrans | backend/main.py:469 | A substring of a substring is a substring, which is why "pain" shadows the longer pain keywords. |
| ConsultRules.ChestPainKeywords | backend/main.py:459-470 | "chest pain" holds none of the keywords of the first two rules, nor "headache" or "migraine". |
| ClinicStore.Store.ScopedMedicines | backend/main.py:539-558 | An unknown appointment gives 404. Otherwise the result is one record per prescription item whose id is a table position: that medicine with the item's quantity, in prescription order. |
| StoreSpec.ResolveAllInRange | backend/main.py:550-557 | When every item names a table position, there is exactly one record per item, each the named medicine with the item's quantity. |
| StoreSpec.ResolveSkipsOutOfRange | backend/main.py:552-553 | Resolving skips exactly the items outside the table: it equals resolving the in-table items alone. |
| ClinicStore.Store.Search | backend/main.py:559-563 | Keeps the table order. A medicine is returned iff its lower-cased name contains the lower-cased query. |
| ClinicStore.Store.Restock | backend/main.py:576-581 | An id outside the table gives 404 with no change. Otherwise the quantity, of any sign, is added to that medicine's stock and the new stock is returned. |
| ClinicStore.Store.Buy | backend/main.py:595-612 | An id outside the table gives 404. Too little stock gives "Not enough stock of <name>". Both leave every table unchanged. Otherwise the stock drops by the quantity and one sale at the current price is recorded. |
| ClinicStore.Store.CheckStock | backend/main.py:632-636 | The check loop's answer is the stock-check function: the first refusal, in item order. |
| StoreSpec.StockCheck | backend/main.py:632-636 | There is no refusal iff every item names a table position and its quantity is covered by the current stock, each item compared alone. |
| StoreSpec.FirstRefusalReported | backend/main.py:632-636 | The refusal reported is that of the first failing item: 404 for an unknown id, FAILED for missing stock. |
| ClinicStore.Store.Charge | backend/main.py:638-647 | The decrement loop leaves the stock debited by every item, the sales extended by one record per item, and the total at the sum of price × quantity. |
| ClinicStore.ChargeStep | backend/main.py:639-647 | One loop step moves the debited table, the sales and the running total from the first i items to the first i+1. |
| ClinicStore.ChargeKeepsTables | backend/main.py:639-645 | Debiting keeps the ids as table positions, and the new sales name table positions. |
| ClinicStore.Store.BuyBulk | backend/main.py:630-652 | All or nothing. The first refused item, in order, decides the answer: an unknown id gives 404 "Medicine id <id> not found", missing stock gives FAILED "Not enough stock of <name>", and every table is left unchanged. Otherwise the stock is debited, one sale is recorded per item and the total cost is returned. |
| StoreSpec.RepeatedLinesOverdraw | backend/main.py:632-640 | Two lines for one medicine, each within stock but together beyond it, pass the check and drive that stock below zero. |
| StoreSpec.NoOverdrawWithDistinctLines | backend/main.py:632-640 | With distinct medicine ids, a passed check leaves no stock negative. |
| StoreSpec.QtyForDistinct | backend/main.py:639-640 | With distinct ids, the quantity debited from a medicine is that of its one line. |
| StoreSpec.RevenueOfPurchase | backend/main.py:641-647 | The revenue of the recorded sales equals the total cost returned. |
| StoreSpec.RevenueAppend | backend/main.py:641-645 | Revenue adds up over appended sales. |
| StoreSpec.Debit | backend/main.py:639-640 | Debiting keeps the table length, names and prices. |
| StoreSpec.SalesFor | backend/main.py:641-645 | One sale per item, with the item's id and quantity and the medicine's price. |
| ClinicStore.Store.BuyPrescription | backend/main.py:666-702 | Gives 404 for an unknown appointment. An empty prescription gives "No prescription found for this appointment". A refusal leaves every table unchanged. Otherwise it debits, records and totals exactly as the bulk purchase does over the stored prescription, and echoes that prescription. |
| ClinicStore.Store.SalesReport | backend/main.py:704-735 | The three stage loops give the report function's value. |
| ClinicStore.MapStage | backend/main.py:709-713 | The map loop gives, in sale order, each sale's medicine name with sold quantity × price. |
| ClinicStore.GroupStage | backend/main.py:717-719 | The group loop's keys are the distinct names in order of first appearance. Each key maps to its amounts in order. |
| ClinicStore.ReduceStage | backend/main.py:725-729 | The reduce loop gives each key with the sum of its group, in key order. |
| SalesSpec.ReportTotalIsRevenue | backend/main.py:732 | `total_revenue` equals Σ sold_qty × price over all sales. |
| SalesSpec.ReportLines | backend/main.py:725-735 | The report has one line per distinct medicine name, in order of first sale. |
| SalesSpec.Report | backend/main.py:704-735 | The report the three stages give. ReportTotalIsRevenue and ReportLines state its total and its lines. |
| SalesSpec.ReduceKeepsTotal | backend/main.py:725-732 | The per-name sums add up to the sum of all mapped amounts. |
| SalesSpec.MappedRevenue | backend/main.py:709-713 | The mapped amounts add up to the revenue of the sales. |
| SalesSpec.KeysSnoc | backend/main.py:718-719 | A new pair appends its name to the keys unless the name is already a key. |
| SalesSpec.ReduceSnocKnown | backend/main.py:718-729 | A pair under an existing name raises that name's sum by its amount. |
| SalesSpec.ReduceSnocNew | backend/main.py:718-729 | A pair under a new name adds a key whose sum is its amount. |
| SalesSpec.AmountsSnocNew | backend/main.py:718-729 | Under a new name, the reduced amounts gain that amount at the end and are otherwise unchanged. |
| SalesSpec.ValuesOfAbsent | backend/main.py:717-719 | A name never paired with an amount has an empty group. |
| ClinicStore.Store.RateDoctor | backend/main.py:350-363 | Appends the rating to that doctor's list, for any id and value. The count rises by one and the sum by the rating. Every other doctor's count and sum are unchanged. |
| ClinicStore.Store.GetRating | backend/main.py:358-363 | The count and sum of a doctor's ratings, 0 and 0 for an unrated doctor. RateDoctor's ensures state how each rating moves them, and DoctorHome.AverageShown turns them into the average. |
| Gateway.RoundRobin.GetAliveServer | backend/gateway_fixed.py:67-82 | Probes at most n ports. The ports are visited cyclically from `rr_index`, and the index advances by one mod n per probe. The result is the first probed port that is healthy. None means all n probes failed, every port was probed and the index is back where it started. `rr_index` stays in [0, n). |
| Gateway.RoundRobin.constructor | backend/gateway_fixed.py:22-23 | The picker starts at index 0 over BACKEND_PORTS, [8001, 8002, 8003]. |
| Gateway.CycleIsMod | backend/gateway_fixed.py:74 | The cyclic position is `(start + j) % n`. |
| Gateway.StepIsMod | backend/gateway_fixed.py:74 | `(rr_index + 1) % total` moves one step along the cycle. |
| Gateway.Offset | backend/gateway_fixed.py:72-74 | Every port position is reached from the start within one round. |
| Gateway.OffsetOfCycle | backend/gateway_fixed.py:72-74 | Within one round the visit order is one-to-one. |
| AuthContext.DecodeEncode | frontend/src/context/AuthContext.tsx:22-29 | Parsing the stored JSON of a session, or of null, gives it back. |
| AuthContext.Encode | frontend/src/context/AuthContext.tsx:29 | `JSON.stringify` of the session or null. DecodeEncode proves it reads back. |
| AuthContext.Decode | frontend/src/context/AuthContext.tsx:22 | `JSON.parse` of a stored session. DecodeEncode proves it inverts Encode. |
| AuthContext.Restore | frontend/src/context/AuthContext.tsx:20-26 | The initial session from storage. RestoreAfterPersist and RestoreWithoutEntry state its value. |
| AuthContext.UnescapeEscape | frontend/src/context/AuthContext.tsx:29 | A JSON-escaped username reads back, up to its closing quote, as itself. |
| AuthContext.RestoreAfterPersist | frontend/src/context/AuthContext.tsx:20-30 | After the persist effect, restoring from storage gives the in-memory session. |
| AuthContext.RestoreWithoutEntry | frontend/src/context/AuthContext.tsx:22 | An absent `mc_user` restores as null. |
| AuthContext.AuthProvider.constructor | frontend/src/context/AuthContext.tsx:20-30 | The session is restored from `mc_user`, or null when the entry is absent or unparsable, and then written back. |
| AuthContext.AuthProvider.Login | frontend/src/context/AuthContext.tsx:32-36 | After `/login` answers, the session is the returned id with the typed username, and storage mirrors it. A throw leaves session and storage unchanged and propagates. |
| AuthContext.AuthProvider.Signup | frontend/src/context/AuthContext.tsx:38-42 | The same, against `/signup`. |
| AuthContext.AuthProvider.SignIn | frontend/src/context/AuthContext.tsx:32-42 | The step login and signup share: one POST, then the session and its stored copy. |
| AuthContext.AuthProvider.Logout | frontend/src/context/AuthContext.tsx:44-47 | The session becomes null and `mc_user` is removed. If there was a session, the effect then writes "null". Restoring gives null either way. |
| MedicinesPage.AddToCart | frontend/src/pages/patient/Medicines.tsx:19-27 | A medicine already in the cart gets +1 on its line, with length and order unchanged. A new one is appended as quantity 1. |
| MedicinesPage.RemoveFromCart | frontend/src/pages/patient/Medicines.tsx:29-31 | Removes the lines of that medicine and keeps the others in order. |
| MedicinesPage.RemoveAbsentIsNoop | frontend/src/pages/patient/Medicines.tsx:29-31 | Removing an absent id leaves the cart as it was. |
| MedicinesPage.AddKeepsCartOk | frontend/src/pages/patient/Medicines.tsx:19-27 | Adding keeps medicine ids unique and quantities ≥ 1. |
| MedicinesPage.RemoveKeepsCartOk | frontend/src/pages/patient/Medicines.tsx:29-31 | Removing keeps medicine ids unique and quantities ≥ 1. |
| MedicinesPage.SubseqKeepsCartOk | frontend/src/pages/patient/Medicines.tsx:30 | Any order-keeping deletion from a well-formed cart is well formed. |
| MedicinesPage.SubseqMembers | frontend/src/pages/patient/Medicines.tsx:30 | An order-keeping deletion only holds lines of the original. |
| MedicinesPage.MedicinesPage.Load | frontend/src/pages/patient/Medicines.tsx:12-17 | Fetches the list, keeps the old one on failure, and ends loading either way. |
| MedicinesPage.MedicinesPage.Add | frontend/src/pages/patient/Medicines.tsx:19-27 | The cart becomes `AddToCart` of the old cart, and the invariant holds. |
| MedicinesPage.MedicinesPage.Remove | frontend/src/pages/patient/Medicines.tsx:29-31 | The cart becomes `RemoveFromCart` of the old cart, and the invariant holds. |
| MedicinesPage.MedicinesPage.Checkout | frontend/src/pages/patient/Medicines.tsx:33-41 | No user, then an empty cart, each alert without a call and leave the cart as it was. Otherwise the whole cart goes to `/buy_bulk` in one call. The cart is cleared iff the status is SUCCESS. Each outcome gets its own alert. |
| Catalog.LabelMap | frontend/src/pages/patient/BookAppointment.tsx:18-24 | The label map's keys are exactly the fetched doctor ids. |
| Catalog.LastListingWins | frontend/src/pages/patient/BookAppointment.tsx:22 | A doctor listed after every other with its id is labelled "name (specialty)". |
| Catalog.BuildLabelMap | frontend/src/pages/patient/ConsultFlow.tsx:21-23 | The `forEach` loop builds the label map. |
| Catalog.Label | frontend/src/pages/patient/BookAppointment.tsx:22 | A label starts with the doctor's name and is longer than it. |
| Catalog.LabelOrFallsBackExactlyForUnknown | frontend/src/pages/patient/UserAppointments.tsx:56 | A fetched doctor shows its label. An id no fetched doctor has shows the fallback. |
| Catalog.LabelsNonEmpty | frontend/src/pages/patient/UserAppointments.tsx:13 | No label is empty. |
| BookAppointment.DoctorZeroRejected | frontend/src/pages/patient/BookAppointment.tsx:43 | Selecting doctor 0 (Dr. Mehta, backend/main.py:52) fails the `!doctorId` guard. |
| BookAppointment.PositiveDoctorAccepted | frontend/src/pages/patient/BookAppointment.tsx:43 | A positive doctor id with a chosen slot passes the guard. |
| BookAppointment.ChoiceOfText | frontend/src/pages/patient/BookAppointment.tsx:64-74 | Choosing a doctor option, whose value is the doctor's id printed as text, sets the choice to exactly that id. |
| BookAppointment.BookAppointmentPage.LoadDoctors | frontend/src/pages/patient/BookAppointment.tsx:17-25 | The doctor list and its label map. A rejected fetch changes neither. |
| BookAppointment.BookAppointmentPage.ChooseDoctor | frontend/src/pages/patient/BookAppointment.tsx:33-39 | A changed, non-null doctor fetches its slots, which replace `slots`. A failed fetch keeps them. Otherwise no call is made. |
| BookAppointment.BookAppointmentPage.Preselect | frontend/src/pages/patient/BookAppointment.tsx:27-39 | A non-empty `doctor` parameter selects `Number` of it. If that changes the choice, the `[doctorId]` effect fetches that doctor's slots: an answer replaces `slots` and a throw keeps them. Otherwise nothing is sent and the slots stay. |
| BookAppointment.BookAppointmentPage.SelectDoctor | frontend/src/pages/patient/BookAppointment.tsx:33-67 | The select sets the doctor to the choice, null for the empty option. A changed, non-null choice fetches that doctor's slots: an answer replaces `slots` and a throw keeps them. Otherwise nothing is sent and the slots stay. |
| BookAppointment.BookAppointmentPage.SelectSlot | frontend/src/pages/patient/BookAppointment.tsx:78 | The select sets the slot. |
| BookAppointment.BookAppointmentPage.Submit | frontend/src/pages/patient/BookAppointment.tsx:41-53 | No user, then a missing or falsy doctor or slot, set their message without a call. Otherwise one `/book` call is made. SUCCESS alerts with `doctorMap[doctorId]` and navigates to /patient. Any other status sets `res.message` or "Failed to book appointment". A throw sets the error text. Only SUCCESS alerts or navigates. |
| ConsultFlow.NormalizedTokens | frontend/src/pages/patient/ConsultFlow.tsx:39 | The tokens keep input order and are exactly the non-empty trimmed comma pieces. None is empty, has whitespace at either end, or holds a comma. |
| ConsultFlow.BlankPiecesGiveNothing | frontend/src/pages/patient/ConsultFlow.tsx:39-40 | Text of only commas and whitespace gives no symptoms. |
| ConsultFlow.TrimAllKeepsOut | frontend/src/pages/patient/ConsultFlow.tsx:39 | Trimming never brings in a character the piece lacked. |
| ConsultFlow.TrimKeepsChars | frontend/src/pages/patient/ConsultFlow.tsx:39 | A trimmed string's characters come from the string. |
| ConsultFlow.DefaultIsLastNotLargest | frontend/src/pages/patient/ConsultFlow.tsx:32 | For the list [#5, #3], the default is 3, not the largest id. |
| ConsultFlow.ConsultFlowPage.LoadDoctors | frontend/src/pages/patient/ConsultFlow.tsx:17-25 | The doctor list and its label map. |
| ConsultFlow.ConsultFlowPage.LoadAppointments | frontend/src/pages/patient/ConsultFlow.tsx:27-35 | Only with a user. The list is replaced, and a non-empty list selects its last element's id. |
| ConsultFlow.ConsultFlowPage.SelectAppointment | frontend/src/pages/patient/ConsultFlow.tsx:74-77 | The empty option is null. Anything else is `Number` of the value. |
| ConsultFlow.ConsultFlowPage.EnterSymptoms | frontend/src/pages/patient/ConsultFlow.tsx:93 | The text area sets the symptoms text. |
| ConsultFlow.ConsultFlowPage.Submit | frontend/src/pages/patient/ConsultFlow.tsx:37-49 | Three guards run in order, each storing its error with no call: no user, no symptoms, then no appointment (null or 0). Past them the consultation is sent. |
| ConsultFlow.ConsultFlowPage.SendConsult | frontend/src/pages/patient/ConsultFlow.tsx:42-48 | The `/consult` answer is stored, and only then is the scoped medicine fetch sent. If that fetch throws, the stored diagnosis is overwritten with the error. |
| ConsultFlow.ConsultFlowPage.ShownPrescription | frontend/src/pages/patient/ConsultFlow.tsx:97-111 | A prescription is shown iff a diagnosis is stored. It has one line per scoped record when there are any, each with the record's quantity and its name (or "Medicine ID undefined" for a nameless record, as the server's records carry no `medicine_id`). Otherwise it has one "Medicine ID <id>" line per raw prescription item, with that item's quantity. Lines follow their records in order. |
| UserAppointments.WithoutAppointment | frontend/src/pages/patient/UserAppointments.tsx:34 | Removes exactly the entries with that id and keeps the rest in order. |
| UserAppointments.WithoutUnlistedIsNoop | frontend/src/pages/patient/UserAppointments.tsx:34 | Removing an unlisted id changes nothing. |
| UserAppointments.WithoutTwiceIsOnce | frontend/src/pages/patient/UserAppointments.tsx:34 | Removing an id twice is removing it once. |
| UserAppointments.DoctorLineNamesDoctor | frontend/src/pages/patient/UserAppointments.tsx:56 | Once the doctors have loaded, an appointment with a fetched doctor shows the label of that doctor's last listing, which begins with the doctor's name. |
| UserAppointments.DoctorLineOfUnknown | frontend/src/pages/patient/UserAppointments.tsx:56 | An appointment whose doctor no fetched doctor matches shows "ID <doctor_id>". |
| UserAppointments.SymptomsLine | frontend/src/pages/patient/UserAppointments.tsx:57-58 | Shown iff there are symptoms. A single symptom is shown as itself, and every recorded symptom occurs in the shown line. |
| Text.JoinContainsAll | frontend/src/pages/patient/UserAppointments.tsx:58 | Every part occurs in `parts.join(sep)`. |
| UserAppointments.UserAppointmentsPage.Load | frontend/src/pages/patient/UserAppointments.tsx:17-24 | Only with a user. The list is replaced, a failure is swallowed, and loading ends. |
| UserAppointments.UserAppointmentsPage.LoadDoctors | frontend/src/pages/patient/UserAppointments.tsx:10-28 | The doctor list and its label map. |
| UserAppointments.UserAppointmentsPage.Cancel | frontend/src/pages/patient/UserAppointments.tsx:30-38 | One DELETE call. SUCCESS removes that id and alerts. Any other status, or a throw, leaves the list unchanged. |
| UserPrescriptions.DetailMap | frontend/src/pages/patient/UserPrescriptions.tsx:25-28 | The keys are exactly the listed appointment ids. |
| UserPrescriptions.DetailMapAt | frontend/src/pages/patient/UserPrescriptions.tsx:28 | An id sends to its own fetch's `medicines`, or [] when that field is missing. |
| UserPrescriptions.ShownAfterDetails | frontend/src/pages/patient/UserPrescriptions.tsx:25-62 | After the details load, a prescription whose appointment is listed once shows the records its own fetch returned. When that fetch returned none, it shows its raw items as "Medicine ID <id>" lines. |
| UserPrescriptions.UserPrescriptionsPage.Load | frontend/src/pages/patient/UserPrescriptions.tsx:12-19 | Only with a user. The list is replaced, a failure is swallowed, and loading ends. |
| UserPrescriptions.UserPrescriptionsPage.LoadDetails | frontend/src/pages/patient/UserPrescriptions.tsx:21-33 | Runs only for a non-empty list. One GET `/medicines?appointment_id=<id>` is issued per prescription, in list order. Any throw leaves the map as it was. Otherwise the loop's map is the detail map of the answers. |
| UserPrescriptions.UserPrescriptionsPage.BuyPrescription | frontend/src/pages/patient/UserPrescriptions.tsx:35-44 | One call with no guard. SUCCESS reports `total_cost`. Otherwise it reports `res.message` or the default. A throw reports the error. No other state changes. |
| DoctorHome.AverageShown | frontend/src/pages/doctor/DoctorHome.tsx:46 | The shown average is `sum/len` of the ratings (main.py:362): it times the count gives the sum. "N/A" appears iff there are no ratings or they sum to 0, the two cases where the average is falsy. |
| DoctorHome.ReloadTargetsRatedDoctor | frontend/src/pages/doctor/DoctorHome.tsx:19-20 | For a doctor picked in the select, the reload reads back the same id the POST used. |
| DoctorHome.DoctorHomePage.LoadDoctors | frontend/src/pages/doctor/DoctorHome.tsx:10 | The doctor list. A rejected fetch changes nothing. |
| DoctorHome.DoctorHomePage.LoadDoctorRating | frontend/src/pages/doctor/DoctorHome.tsx:12-14 | The answer is stored under that doctor's key and the other keys are untouched. A failure leaves the map as it was. |
| DoctorHome.DoctorHomePage.EditForm | frontend/src/pages/doctor/DoctorHome.tsx:58-70 | The controls set the form. |
| DoctorHome.DoctorHomePage.SubmitRating | frontend/src/pages/doctor/DoctorHome.tsx:16-22 | An empty doctor, rating or user alerts with no call and no change. |
| DoctorHome.DoctorHomePage.SendRating | frontend/src/pages/doctor/DoctorHome.tsx:18-21 | POSTs the parsed user id and rating. SUCCESS alerts, resets the form and reloads that doctor's rating. Any other status leaves the form, and everything else, unchanged. A throw only alerts. |
| PharmacyHome.PharmacyHomePage.Load | frontend/src/pages/pharmacy/PharmacyHome.tsx:11-16 | The list is replaced, and kept (empty at mount) on failure. Loading ends either way. |
| PharmacyHome.PharmacyHomePage.LoadSalesReport | frontend/src/pages/pharmacy/PharmacyHome.tsx:18-20 | The answer replaces the report. A failure keeps the old one. |
| PharmacyHome.PharmacyHomePage.EditForm | frontend/src/pages/pharmacy/PharmacyHome.tsx:66-70 | The controls set the form. |
| PharmacyHome.PharmacyHomePage.Restock | frontend/src/pages/pharmacy/PharmacyHome.tsx:22-32 | An empty field alerts with no call. Otherwise one POST with no body to `/medicines/<id>/restock?quantity=<qty>`, the fields as typed. SUCCESS alerts the new stock ("undefined" if the field is missing), resets the form and replaces the list with a fresh fetch. Any other status, or a throw, leaves the form and the list unchanged. |
| Wire.ParseIntOfText | frontend/src/pages/doctor/DoctorHome.tsx:19-20 | `parseInt` reads every printed integer back. |
| Wire.ParseNumberOfText | frontend/src/pages/patient/ConsultFlow.tsx:76 | `Number` reads every printed integer back. |
| Wire.ParseIntIgnoresTail | frontend/src/pages/doctor/DoctorHome.tsx:19-20 | `parseInt` reads a printed integer and ignores whatever follows it that does not start with a digit. |
| Wire.ParseNumberRejectsTail | frontend/src/pages/patient/BookAppointment.tsx:30 | `Number` of a printed integer followed by text not ending in whitespace is NaN, where `parseInt` of the same text is the integer. |
| Wire.FieldText | frontend/src/pages/patient/Medicines.tsx:38 | A number in an alert reads back with `parseInt` as the field's value. A missing field prints as "undefined", which reads back as NaN. |
| Text.Split | frontend/src/pages/patient/ConsultFlow.tsx:39 | `split(",")`: at least one piece, no piece holds the separator, and the pieces joined with it give the text back. |
| Text.Trim | frontend/src/pages/patient/ConsultFlow.tsx:39 | `trim()`: a slice of the text with only whitespace cut away on both sides. No whitespace is left at either end. The result is empty iff the text is all whitespace. |
| Text.ReadIntRoundTrip | frontend/src/pages/doctor/DoctorHome.tsx:19 | Reading a printed integer gives it back with the rest of the text. |
| Text.NatToStringRoundTrip | frontend/src/pages/patient/ConsultFlow.tsx:46 | The decimal digits of a printed natural number denote that number. |
| Text.LowerOfLower | backend/main.py:562 | Text without capital letters is its own lower case, so a lower-cased query or name lower-cases to itself. |
| Seqs.Filter | backend/main.py:562 | A comprehension with an `if` keeps exactly the elements that pass. |
| Seqs.FilterIsSubseq | backend/main.py:333 | A comprehension with an `if` keeps the original order. |
| Seqs.FilterCounts | backend/main.py:333 | It keeps each passing element as often as it occurs. |
| Seqs.Dedup | backend/main.py:717-727 | The keys of a dict filled in a loop: exactly the elements of the sequence. |
| Seqs.DedupFirstOccurrence | backend/main.py:718-719 | The keys are in order of first occurrence: every key earlier in the result first occurs in the input before a later key does. |

## Left out

- Coordinator election, the health endpoint, forwarding to the coordinator, clock sync and state replication (`backend/main.py:115-274` and the prefix of each write handler) are networked and threaded. Each handler is modelled as its coordinator branch, as one sequential step; the lock sections are that step.
- Handlers that only read a table and have no logic beyond it (`/users/{id}/appointments`, `/users/{id}/prescriptions`, `/doctors`) are the `Reply` a page receives and are not methods of the store.
- ClinicStore.Store.ScopedMedicines: the unscoped branch of `get_medicines`, which returns the whole table, is not a separate member.
- ClinicStore.Store.RateDoctor: the average in `get_doctor_rating` is a float. The model keeps the ratings as integers with their count and sum (`GetRating`). The page's average (`DoctorHome.AverageShown`) is the exact real quotient, without float rounding, and `toFixed(1)` is not modelled.
- ClinicStore.Store.Login and Signup: usernames are not checked for uniqueness, as in the source, so a second signup with the same name is accepted and login returns the first match.
- ClinicStore.Store.Reschedule assumes what `Valid()` guarantees, that the appointment's doctor exists. The source would crash on a missing doctor, and the invariant rules that out.
- ClinicStore.Store.Charge computes on copies of the tables and assigns them at the end. The aliasing of `MEDICINES[id]` dictionaries during the loop is not modelled.
- Text.Lower folds only ASCII letters. Python's `str.lower` covers all of Unicode.
- AuthContext.Decode reads only the JSON layout that `JSON.stringify` writes for a session, so other valid JSON in storage restores as null. Control characters in usernames are written unescaped.
- Wire.ParseInt and Wire.ParseNumber handle decimal integers only. Hex, exponents, a leading '+', fractions and the other number forms of JavaScript are not modelled, and a fraction reads as NaN.
- React effect scheduling and asynchrony are sequential steps. `Promise.all` runs its calls one after another. Unhandled rejections of `.then` without `.catch` leave the state unchanged. Page methods take the reply of each call as a parameter.
- ConsultFlow's optional doctor select is not modelled. Its value is never sent.
- Rendering is left out. The displayed lines are modelled only for the prescription lists, the doctor labels, the symptoms line of an appointment and the rating summary. The appointment option text of ConsultFlow (`ConsultFlow.AppointmentOption`, `ConsultFlow.tsx:82-84`) is defined but has no property of its own.
- `useAuth` (`AuthContext.tsx:13-17`) is the case split `AuthContext.UseAuth`: the context, or the thrown "useAuth must be used within AuthProvider". No page outside the provider is modelled, so no further property is stated about it.
- The gateway's proxy endpoints (`backend/gateway_fixed.py:85-251`) and `backend/gateway.py` forward requests unchanged. The picker in `backend/gateway.py` is an older copy of the modelled one.
- `start_backend.py` only spawns processes, and `test_api.py` is a live HTTP script with no assertions.
- `Home.tsx`, `App.tsx`, `PatientLayout.tsx`, `PatientDashboard.tsx` and `AuthPage.tsx` are presentation and routing.
- The body of `api` (`frontend/src/lib/api`) is not part of this model. It is the oracle described above.
- The purchase alert of `UserPrescriptions.tsx:39` holds the rupee sign doubly encoded, as the three characters U+00E2 U+201A U+00B9. The model keeps that text as written (`UserPrescriptions.PurchasedPrefix`).
