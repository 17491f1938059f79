# Customer aggregate, modelled in Dafny

This project models the core of the aggregate-implementation-patterns kata.
The kata implements one **Customer aggregate** about fifteen times, in different styles.
The aggregate supports four commands:

- register;
- confirm the e-mail address with a confirmation hash;
- change the e-mail address;
- change the name.

Every complete variant is modelled here; the three exercise stubs are listed under "Left out".
They all share one set of values (`ID`, `Hash`, `EmailAddress`, `PersonName`), four commands and five events (`shared.dfy`).

- **The projection** (`projection.dfy`).
  - `Projection.Apply` is the per-event update of the event-sourced state object.
  - `Projection.Fold` folds a history in list order from an all-null state.
  - A Java `null` is `None`. The boxed `Boolean` flag of the functional state object is an `Option<bool>`.
  - The OOP aggregates hold the flag in a primitive `boolean`. `Projection.Primitive` reads an unset flag as `false` for them.
  - The `Last*` functions are a backward reference definition: each field is whatever the last event that writes it wrote. `Projection.FoldIsLastWrites` proves that the fold computes exactly that.
- **The event-sourced decisions** (`decisions.dfy`).
  - These are the register, confirm, change-address and change-name tables.
  - Every event-sourced handler, in every style, is proved equal to one of them on the fields it reads.
- **The functional event-sourced variants.**
  - The mutable state object with its `reconstitute`/`forward` loop is a class, specified by the fold.
  - Customer5 decides on a folded state.
  - Customer6 (both trees) folds the history first.
  - Customer7 (both trees) runs its own loops over local variables. They are methods whose invariants tie the locals to the `Last*` functions.
- **The OOP event-sourced variants.**
  - These are classes whose fields the `apply` loop overwrites.
  - A ghost `applied` history and `Valid()` tie the fields to the fold of everything applied.
  - The handlers' contracts say which events are recorded or returned, and what the fields become.
  - The variants differ observably:
    - the `src/domain` Customer1 applies every recorded event and drains its buffer;
    - the `src/main/java` Customer1 does neither, so a repeated command is recorded twice;
    - the `src/main/java` Customer3 ignores name changes.
- **The traditional variants.**
  - These keep a current-state record (`TraditionalState.CustomerState`) and throw on a wrong hash.
  - The functional ones are functions returning a `Result`. The OOP ones are classes whose methods return an `Outcome`.
  - Each OOP class is proved to step exactly as its functional twin.
  - The functional ones are related to the event-sourced tables by agreement lemmas (`Agrees`).

## Where the variants differ

The model follows each variant's own code in each of these cases.

- Confirming right after a lone registration.
  - In `src/domain/functional/es/customer/CustomerState.java` the flag is a boxed `Boolean`, and a lone registration leaves it null.
  - `test/domain/functional/es/customer/Customer6Test.java:114-136` expects `[CustomerEmailAddressConfirmed]` in that case.
  - `Customer5` unboxes the null flag instead (see Findings).
- A wrong hash for a customer who is already confirmed.
  - The `src/main/java` traditional variants (`oop/traditional/customer/Customer1.java`, `functional/traditional/customer/Customer2.java`) check the hash only, so they reject it (`MainOopTraditionalCustomer1.ConfirmedRejectsWrongHash`).
  - The `src/domain` traditional variants (`oop/traditional/customer/Customer3.java`, `functional/traditional/customer/Customer4.java`) test the flag first, so a confirmed customer accepts any hash silently (`FunctionalTraditionalCustomer4.ConfirmedIgnoresWrongHash`).
  - The event-sourced variants check the hash first and record a failure event. The `src/main/java` traditional variants throw instead; the `src/domain` ones return without change (`OopTraditionalCustomer3.ConfirmedAcceptsAnyHash`).
- A history without a registration.
  - The `src/domain` Customer7 guards each local against null: it answers a confirmation with a failure event, and an address or name change with no events (`FunctionalEsCustomer7.WithoutHistory`).
  - The `src/main/java` Customer7 asserts that the locals are set, so there it is a precondition.
- `src/domain/functional/es/customer/Customer6.java:29` reads `isEmailAddressConfirmed`, a field its state class does not declare, so the file does not compile as written.
  - `FunctionalEsCustomer6.ConfirmEmailAddress` reads the fold's flag there, with null read as false, which is what `Customer6Test.java:114-136` expects.
- The `src/main/java` state class that `src/main/java/domain/functional/es/customer/Customer6.java` relies on has `// TODO` bodies in its `apply`.
  - `MainFunctionalEsCustomer6` decides over the completed fold, with its primitive flag.

## Model

| member | source | states |
|---|---|---|
| Projection.Primitive | src/domain/oop/es/customer/Customer1.java:29 | a primitive flag always holds a value, and it is true exactly when the boxed flag is true; nothing else is changed |
| Projection.Apply | src/domain/functional/es/customer/CustomerState.java:40-54 | applying an event never assigns the id, and a ConfirmationFailed event leaves the state as it was |
| Projection.FoldFrom | src/domain/functional/es/customer/CustomerState.java:28-32 | forwarding events never changes the id |
| Projection.Fold | src/domain/functional/es/customer/CustomerState.java:20-26 | a reconstituted state never has an id |
| Projection.FoldSnoc | src/domain/functional/es/customer/CustomerState.java:28-32 | folding one more event is applying it to the fold so far |
| Projection.FoldFromAppend | src/domain/functional/es/customer/CustomerState.java:28-32 | forwarding `a ++ b` is forwarding `a`, then `b` |
| Projection.FoldSplit | src/domain/functional/es/customer/CustomerState.java:20-32 | reconstitute(a ++ b) equals reconstitute(a) followed by forward(b) |
| Projection.FoldRegistered | src/domain/functional/es/customer/CustomerState.java:41-44 | CustomerRegistered sets address, hash and name from the event and leaves the flag and id alone |
| Projection.FoldConfirmed | src/domain/functional/es/customer/CustomerState.java:45-46 | CustomerEmailAddressConfirmed sets the flag to true and changes nothing else |
| Projection.FoldChanged | src/domain/functional/es/customer/CustomerState.java:47-50 | CustomerEmailAddressChanged replaces address and hash and sets the flag to false; name and id stay |
| Projection.FoldNameChanged | src/domain/functional/es/customer/CustomerState.java:51-52 | CustomerNameChanged replaces the name only |
| Projection.FoldConfirmationFailed | src/domain/functional/es/customer/CustomerState.java:40-53 | CustomerEmailAddressConfirmationFailed changes nothing |
| Projection.FoldRegisteredConfirmedChanged | src/domain/oop/es/customer/Customer1.java:107-121 | after Registered, Confirmed and Changed the state holds the new address and hash and the registered name, with the flag false |
| Projection.FoldIsLastWrites | src/domain/functional/es/customer/CustomerState.java:40-53 | every projected field is the value written by the last event that writes it; the id is never set |
| Projection.LastConfirmationUnset | src/domain/functional/es/customer/CustomerState.java:45-50 | no flag value has been written exactly when no Confirmed or Changed event occurs |
| Projection.FlagUnsetUntilWritten | src/domain/functional/es/customer/CustomerState.java:12-16 | the boxed flag stays null exactly as long as no Confirmed or Changed event has been folded |
| Projection.FoldFromPrimitive | src/domain/oop/es/customer/Customer1.java:107-121 | folding onto a primitive-flag object gives the primitive reading of the boxed fold |
| Projection.PrimitiveFoldAppend | src/domain/oop/es/customer/Customer1.java:101-105 | an OOP aggregate holding the projection of `a` that applies `b` holds the projection of `a ++ b` |
| Projection.PrimitiveFoldSnoc | src/domain/oop/es/customer/Customer1.java:107-121 | the one-event case of the above |
| Projection.FoldFromKeepsSet | src/domain/functional/es/customer/CustomerState.java:40-53 | no event clears an address, hash or name once it is set |
| Projection.RegisteredFirstIsSet | src/domain/functional/es/customer/CustomerState.java:41-44 | a history that starts with CustomerRegistered projects to a set address, hash and name |
| Decisions.Registered | src/domain/oop/es/customer/Customer1.java:38-46 | register yields CustomerRegistered with the command's fields; folded alone it sets address, hash and name and leaves the flag null |
| Decisions.Confirm | src/domain/oop/es/customer/Customer1.java:56-70 | [Failed] iff the hash differs, whatever the flag; [] iff it matches and the address is confirmed; [Confirmed] iff it matches and is not confirmed; each event carries the command's id |
| Decisions.ChangeEmailAddress | src/domain/oop/es/customer/Customer1.java:72-78 | [] iff the address is the current one, otherwise one Changed with the command's address and hash |
| Decisions.ChangeName | src/domain/oop/es/customer/Customer1.java:80-86 | [] iff the name is the current one, otherwise one NameChanged |
| Decisions.ConfirmRepeated | src/domain/oop/es/customer/Customer1.java:96-99 | applying what confirm yields and confirming again yields nothing, unless the hash was wrong, in which case it fails again; the hash is kept |
| Decisions.ChangeEmailAddressRepeated | src/domain/oop/es/customer/Customer1.java:96-99 | applying what an address change yields and repeating it yields nothing |
| Decisions.ChangeNameRepeated | src/domain/oop/es/customer/Customer1.java:96-99 | applying what a name change yields and repeating it yields nothing |
| Decisions.ChangedHashSupersedes | src/domain/oop/es/customer/Customer1.java:114-117 | after an address change only the new hash confirms; every other hash, the old one included, fails |
| FunctionalEsCustomerState.CustomerState.constructor | src/domain/functional/es/customer/CustomerState.java:18 | a new state object has every field null |
| FunctionalEsCustomerState.CustomerState.Reconstitute | src/domain/functional/es/customer/CustomerState.java:20-26 | the new object holds the fold of the history; the private `apply(List)` loop it runs is the same code as `forward`, so it is modelled by a call to `Forward` |
| FunctionalEsCustomerState.CustomerState.Forward | src/domain/functional/es/customer/CustomerState.java:28-38 | the loop leaves the fold of the events on top of the old fields |
| FunctionalEsCustomerState.CustomerState.Apply | src/domain/functional/es/customer/CustomerState.java:40-54 | the fields become the projection's `Apply` of the old ones |
| FunctionalEsCustomerState.ReconstituteThenForward | src/domain/functional/es/customer/CustomerState.java:20-32 | reconstitute(a) then forward(b) holds the projection of `a ++ b`, with no id |
| FunctionalEsCustomer5.Register | src/domain/functional/es/customer/Customer5.java:13-20 | the registration event of the decision table |
| FunctionalEsCustomer5.ConfirmEmailAddressAsWritten | src/domain/functional/es/customer/Customer5.java:22-32 | throws (null unboxing) exactly when the hash matches and the flag is still null; otherwise the decision table |
| FunctionalEsCustomer5.RegisteredOnlyConfirmThrows | src/domain/functional/es/customer/Customer5.java:27 | the right hash on a state folded from a lone registration throws |
| FunctionalEsCustomer5.ConfirmEmailAddress | src/domain/functional/es/customer/Customer5.java:22-32 | the decision table with a null flag read as false; it agrees with the as-written version wherever that one returns |
| FunctionalEsCustomer5.RegisteredOnlyConfirms | src/domain/functional/es/customer/Customer5.java:22-32 | with the correction, the right hash on a lone registration yields [Confirmed] |
| FunctionalEsCustomer5.ChangeEmailAddress | src/domain/functional/es/customer/Customer5.java:34-40 | the address-change table on the state's address |
| FunctionalEsCustomer5.ChangeName | src/domain/functional/es/customer/Customer5.java:42-48 | the name-change table on the state's name |
| FunctionalEsCustomer6.Register | src/domain/functional/es/customer/Customer6.java:13-20 | the registration event of the decision table |
| FunctionalEsCustomer6.ConfirmEmailAddress | src/domain/functional/es/customer/Customer6.java:22-34 | the confirm table on the fold of the whole history |
| FunctionalEsCustomer6.ChangeEmailAddress | src/domain/functional/es/customer/Customer6.java:36-44 | the address-change table on the fold of the whole history |
| FunctionalEsCustomer6.ChangeName | src/domain/functional/es/customer/Customer6.java:46-54 | the name-change table on the fold of the whole history |
| FunctionalEsCustomer6.ConfirmAgainAfterAppend | src/domain/functional/es/customer/Customer6.java:22-34 | appending what confirm yields and confirming again yields [], or [Failed] again for a wrong hash |
| FunctionalEsCustomer6.ChangeEmailAddressAgainAfterAppend | src/domain/functional/es/customer/Customer6.java:36-44 | appending what an address change yields and repeating it yields [] |
| FunctionalEsCustomer6.ChangeNameAgainAfterAppend | src/domain/functional/es/customer/Customer6.java:46-54 | appending what a name change yields and repeating it yields [] |
| FunctionalEsCustomer6.ConfirmAfterConfirmedAndChanged | test/domain/functional/es/customer/Customer6Test.java:88-112 | after Registered, Confirmed and Changed the new hash confirms and any other fails |
| MainFunctionalEsCustomer6.Register | src/main/java/domain/functional/es/customer/Customer6.java:11-18 | the registration event of the decision table |
| MainFunctionalEsCustomer6.ConfirmEmailAddress | src/main/java/domain/functional/es/customer/Customer6.java:20-32 | the confirm table on the reconstituted history, with its primitive flag |
| MainFunctionalEsCustomer6.ChangeEmailAddress | src/main/java/domain/functional/es/customer/Customer6.java:34-42 | the address-change table on the reconstituted history |
| MainFunctionalEsCustomer6.AgreesWithDomainCustomer6 | src/main/java/domain/functional/es/customer/Customer6.java:20-42 | this tree's primitive flag always holds a value, true exactly when the last flag-writing event was a confirmation, as the other tree's boxed flag reads; on that basis both trees' Customer6 decide alike on every history |
| FunctionalEsCustomer7.Register | src/domain/functional/es/customer/Customer7.java:16-23 | the registration event of the decision table |
| FunctionalEsCustomer7.ConfirmEmailAddress | src/domain/functional/es/customer/Customer7.java:25-48 | the loop tracks the last hash and flag; no hash fails like a wrong one; equal to Customer6 wherever that is defined |
| FunctionalEsCustomer7.ChangeEmailAddress | src/domain/functional/es/customer/Customer7.java:50-65 | [] if no address was ever written, else the table on the last address; equal to Customer6 wherever that is defined |
| FunctionalEsCustomer7.ChangeName | src/domain/functional/es/customer/Customer7.java:67-83 | [] if no name was ever written, else the table on the last name; equal to Customer6 wherever that is defined |
| FunctionalEsCustomer7.WithoutHistory | src/domain/functional/es/customer/Customer7.java:39-41 | on an empty history confirm fails and both changes yield [] |
| MainFunctionalEsCustomer7.Register | src/main/java/domain/functional/es/customer/Customer7.java:15-22 | the registration event of the decision table |
| MainFunctionalEsCustomer7.ConfirmEmailAddress | src/main/java/domain/functional/es/customer/Customer7.java:24-48 | requires a hash in the history; the table on the last hash and flag; equal to Customer6 |
| MainFunctionalEsCustomer7.ChangeEmailAddress | src/main/java/domain/functional/es/customer/Customer7.java:50-66 | requires an address in the history; the table on the last address; equal to Customer6 |
| MainFunctionalEsCustomer7.ChangeName | src/main/java/domain/functional/es/customer/Customer7.java:68-85 | requires a name in the history; the table on the last name; equal to Customer6 |
| OopEsCustomer1.Customer1.constructor | src/domain/oop/es/customer/Customer1.java:34-36 | references null, flag false, empty buffer |
| OopEsCustomer1.Customer1.Register | src/domain/oop/es/customer/Customer1.java:38-46 | a new aggregate with exactly the registration pending and applied |
| OopEsCustomer1.Customer1.Reconstitute | src/domain/oop/es/customer/Customer1.java:48-54 | a new aggregate holding the projection of the history, nothing pending |
| OopEsCustomer1.Customer1.ConfirmEmailAddress | src/domain/oop/es/customer/Customer1.java:56-70 | records the confirm table's events and applies them to the fields |
| OopEsCustomer1.Customer1.ChangeEmailAddress | src/domain/oop/es/customer/Customer1.java:72-78 | records the address-change table's events and applies them |
| OopEsCustomer1.Customer1.ChangeName | src/domain/oop/es/customer/Customer1.java:80-86 | records the name-change table's events and applies them |
| OopEsCustomer1.Customer1.GetRecordedEvents | src/domain/oop/es/customer/Customer1.java:88-94 | hands out the pending events in order and empties the buffer; fields unchanged |
| OopEsCustomer1.Customer1.RecordThat | src/domain/oop/es/customer/Customer1.java:96-99 | appends the event and applies it at once |
| OopEsCustomer1.Customer1.ApplyAll | src/domain/oop/es/customer/Customer1.java:101-105 | the fields become the fold of the events on top of the old fields |
| OopEsCustomer1.Customer1.Apply | src/domain/oop/es/customer/Customer1.java:107-121 | the fields become the projection's `Apply` of the old ones |
| OopEsCustomer1.RegisterThenDrainTwice | src/domain/oop/es/customer/Customer1.java:88-94 | after register the first request yields exactly the registration and the second yields [] |
| OopEsCustomer1.ConfirmTwice | src/domain/oop/es/customer/Customer1.java:96-99 | the same confirmation twice records nothing the second time, unless the hash is wrong |
| OopEsCustomer1.ChangeEmailAddressTwice | src/domain/oop/es/customer/Customer1.java:96-99 | the same address change twice records nothing the second time |
| OopEsCustomer1.ChangeNameTwice | src/domain/oop/es/customer/Customer1.java:96-99 | the same name change twice records nothing the second time |
| OopEsCustomer2.Customer2.constructor | src/domain/oop/es/customer/Customer2.java:31-32 | references null, flag false |
| OopEsCustomer2.Customer2.Register | src/domain/oop/es/customer/Customer2.java:34-41 | the registration event of the decision table |
| OopEsCustomer2.Customer2.Reconstitute | src/domain/oop/es/customer/Customer2.java:43-49 | a new aggregate holding the projection of the history |
| OopEsCustomer2.Customer2.ConfirmEmailAddress | src/domain/oop/es/customer/Customer2.java:51-67 | returns the confirm table's events, each applied to the fields first |
| OopEsCustomer2.Customer2.ChangeEmailAddress | src/domain/oop/es/customer/Customer2.java:69-79 | returns the address-change table's events, applied first |
| OopEsCustomer2.Customer2.ChangeName | src/domain/oop/es/customer/Customer2.java:81-91 | returns the name-change table's events, applied first |
| OopEsCustomer2.Customer2.ApplyAll | src/domain/oop/es/customer/Customer2.java:93-97 | the fields become the fold of the events on top of the old fields |
| OopEsCustomer2.Customer2.Apply | src/domain/oop/es/customer/Customer2.java:99-115 | applies the event and returns it unchanged |
| OopEsCustomer2.ConfirmTwice | src/domain/oop/es/customer/Customer2.java:51-67 | repeating a confirmation returns [], or [Failed] again for a wrong hash |
| OopEsCustomer2.ChangeEmailAddressTwice | src/domain/oop/es/customer/Customer2.java:69-79 | repeating an address change returns [] |
| OopEsCustomer2.ChangeNameTwice | src/domain/oop/es/customer/Customer2.java:81-91 | repeating a name change returns [] |
| OopEsCustomer2.ConfirmAfterChange | src/domain/oop/es/customer/Customer2.java:106-109 | after Registered, Confirmed and Changed only the new hash confirms |
| MainOopEsCustomer1.Customer1.constructor | src/main/java/domain/oop/es/customer/Customer1.java:23-25 | references null, flag false, empty buffer |
| MainOopEsCustomer1.Customer1.Register | src/main/java/domain/oop/es/customer/Customer1.java:27-35 | the registration is recorded but never applied: the fields stay unset |
| MainOopEsCustomer1.Customer1.Reconstitute | src/main/java/domain/oop/es/customer/Customer1.java:37-43 | a new aggregate holding the projection of the history, nothing recorded |
| MainOopEsCustomer1.Customer1.ConfirmEmailAddress | src/main/java/domain/oop/es/customer/Customer1.java:45-59 | appends the confirm table's events; the fields do not change |
| MainOopEsCustomer1.Customer1.ChangeEmailAddress | src/main/java/domain/oop/es/customer/Customer1.java:61-67 | appends the address-change table's events, an unset address counting as different; the fields do not change |
| MainOopEsCustomer1.Customer1.ChangeName | src/main/java/domain/oop/es/customer/Customer1.java:69-75 | appends the name-change table's events; the fields do not change |
| MainOopEsCustomer1.Customer1.GetRecordedEvents | src/main/java/domain/oop/es/customer/Customer1.java:77-79 | returns the buffer and leaves it as it is |
| MainOopEsCustomer1.Customer1.RecordThat | src/main/java/domain/oop/es/customer/Customer1.java:81-83 | appends and nothing else |
| MainOopEsCustomer1.Customer1.ApplyAll | src/main/java/domain/oop/es/customer/Customer1.java:85-89 | the fields become the fold of the events on top of the old fields |
| MainOopEsCustomer1.Customer1.Apply | src/main/java/domain/oop/es/customer/Customer1.java:91-105 | the fields become the projection's `Apply` of the old ones |
| MainOopEsCustomer1.RegisterThenGetTwice | src/main/java/domain/oop/es/customer/Customer1.java:77-79 | both requests after register return the registration |
| MainOopEsCustomer1.ConfirmTwice | src/main/java/domain/oop/es/customer/Customer1.java:81-83 | the same confirmation twice records its outcome twice |
| MainOopEsCustomer1.ChangeEmailAddressTwice | src/main/java/domain/oop/es/customer/Customer1.java:61-67 | the same address change twice records its outcome twice |
| MainOopEsCustomer1.ChangeNameTwice | src/main/java/domain/oop/es/customer/Customer1.java:69-75 | the same name change twice records its outcome twice |
| MainOopEsCustomer2.Customer2.constructor | src/main/java/domain/oop/es/customer/Customer2.java:20-21 | references null, flag false |
| MainOopEsCustomer2.Customer2.Register | src/main/java/domain/oop/es/customer/Customer2.java:23-30 | the registration event of the decision table |
| MainOopEsCustomer2.Customer2.Reconstitute | src/main/java/domain/oop/es/customer/Customer2.java:32-38 | a new aggregate holding the projection of the history |
| MainOopEsCustomer2.Customer2.ConfirmEmailAddress | src/main/java/domain/oop/es/customer/Customer2.java:40-54 | the confirm table on the fields, which are only read |
| MainOopEsCustomer2.Customer2.ChangeEmailAddress | src/main/java/domain/oop/es/customer/Customer2.java:56-64 | the address-change table, an unset address counting as different |
| MainOopEsCustomer2.Customer2.ChangeName | src/main/java/domain/oop/es/customer/Customer2.java:66-74 | the name-change table, an unset name counting as different |
| MainOopEsCustomer2.Customer2.ApplyAll | src/main/java/domain/oop/es/customer/Customer2.java:76-80 | the fields become the fold of the events on top of the old fields |
| MainOopEsCustomer2.Customer2.Apply | src/main/java/domain/oop/es/customer/Customer2.java:82-96 | the fields become the projection's `Apply` of the old ones |
| MainOopEsCustomer2.ReconstituteThenConfirm | src/main/java/domain/oop/es/customer/Customer2.java:32-54 | confirming on a reconstituted aggregate is the confirm table on the fold |
| MainOopEsCustomer2.ChangeEmailAddressAfterReplay | src/main/java/domain/oop/es/customer/Customer2.java:56-64 | reconstituting from the history plus the returned change and asking again yields [] |
| MainOopEsCustomer2.ChangeNameAfterReplay | src/main/java/domain/oop/es/customer/Customer2.java:66-74 | reconstituting from the history plus the returned name change and asking again yields [] |
| MainOopEsCustomer3.WithoutNameChanges | src/main/java/domain/oop/es/customer/Customer3.java:71-83 | the history minus its name changes: no longer than the history, with no NameChanged left |
| MainOopEsCustomer3.WithoutNameChangesSnoc | src/main/java/domain/oop/es/customer/Customer3.java:71-83 | one more event is dropped if it is a name change and kept otherwise |
| MainOopEsCustomer3.FoldWithoutNameChanges | src/main/java/domain/oop/es/customer/Customer3.java:71-83 | ignoring name changes keeps the fold's address, hash and flag; the name is the last registered one |
| MainOopEsCustomer3.Customer3.constructor | src/main/java/domain/oop/es/customer/Customer3.java:19-20 | references null, flag false |
| MainOopEsCustomer3.Customer3.Register | src/main/java/domain/oop/es/customer/Customer3.java:22-29 | the registration event of the decision table |
| MainOopEsCustomer3.Customer3.Reconstitute | src/main/java/domain/oop/es/customer/Customer3.java:31-37 | a new aggregate holding the fold of the history without its name changes |
| MainOopEsCustomer3.Customer3.ConfirmEmailAddress | src/main/java/domain/oop/es/customer/Customer3.java:39-53 | the confirm table on the fields; a wrong hash fails even when confirmed |
| MainOopEsCustomer3.Customer3.ChangeEmailAddress | src/main/java/domain/oop/es/customer/Customer3.java:55-63 | requires an address; [] iff it equals the command's, else one Changed |
| MainOopEsCustomer3.Customer3.ApplyAll | src/main/java/domain/oop/es/customer/Customer3.java:65-69 | keeps the fields the fold of everything applied but name changes |
| MainOopEsCustomer3.Customer3.Apply | src/main/java/domain/oop/es/customer/Customer3.java:71-83 | the usual update, except that a name change leaves every field as it was |
| MainOopEsCustomer3.ReconstitutedState | src/main/java/domain/oop/es/customer/Customer3.java:31-37 | a reconstituted aggregate holds the fold's address, hash and flag but the last registered name |
| MainOopEsCustomer3.ReconstituteThenConfirm | src/main/java/domain/oop/es/customer/Customer3.java:39-53 | confirming on a reconstituted aggregate is the confirm table on the fold |
| MainOopEsCustomer3.ConfirmAfterChange | src/main/java/domain/oop/es/customer/Customer3.java:78-81 | after Registered, Confirmed and Changed only the new hash confirms |
| TraditionalState.Unconfirmed | src/domain/functional/traditional/customer/CustomerState.java:23-25 | the four-argument constructor leaves the flag false |
| FunctionalTraditionalCustomer4.Register | src/domain/functional/traditional/customer/Customer4.java:9-11 | the new state has the command's id and agrees with the fold of the registration event |
| FunctionalTraditionalCustomer4.ConfirmEmailAddress | src/domain/functional/traditional/customer/Customer4.java:13-29 | throws exactly for an unconfirmed customer and a wrong hash; a confirmed customer is returned as it is; otherwise only the flag goes up |
| FunctionalTraditionalCustomer4.ChangeEmailAddress | src/domain/functional/traditional/customer/Customer4.java:31-39 | new address and hash, flag false, id and name kept, even for the same address |
| FunctionalTraditionalCustomer4.ChangeName | src/domain/functional/traditional/customer/Customer4.java:41-49 | only the name changes |
| FunctionalTraditionalCustomer4.ConfirmAgreesWithEvents | src/domain/functional/traditional/customer/Customer4.java:13-29 | against the event-sourced table: it throws exactly where [Failed] is emitted to an unconfirmed customer, and the resulting state agrees with the projection |
| FunctionalTraditionalCustomer4.ConfirmedIgnoresWrongHash | src/domain/functional/traditional/customer/Customer4.java:14-16 | a confirmed customer with a wrong hash passes here but fails as events |
| FunctionalTraditionalCustomer4.ChangeEmailAddressAgreesWithEvents | src/domain/functional/traditional/customer/Customer4.java:31-39 | for a different address the new state agrees with the projection after the emitted change |
| FunctionalTraditionalCustomer4.ChangeToSameAddressResetsConfirmation | src/domain/functional/traditional/customer/Customer4.java:31-39 | for the same address no event is emitted, yet here the flag drops and the hash is replaced |
| FunctionalTraditionalCustomer4.ChangeNameAgreesWithEvents | src/domain/functional/traditional/customer/Customer4.java:41-49 | the new state agrees with the projection after the emitted name change |
| FunctionalTraditionalCustomer4.ConfirmIdempotent | src/domain/functional/traditional/customer/Customer4.java:13-29 | confirming a confirmed state again with the same command returns it unchanged |
| FunctionalTraditionalCustomer4.ConfirmAfterChange | test/domain/functional/traditional/customer/Customer4Test.java:121-132 | after confirm and change, a wrong hash throws again and the new hash confirms |
| MainFunctionalTraditionalCustomer2.Register | src/main/java/domain/functional/traditional/customer/Customer2.java:9-16 | the new state has the command's id and agrees with the fold of the registration event |
| MainFunctionalTraditionalCustomer2.ConfirmEmailAddress | src/main/java/domain/functional/traditional/customer/Customer2.java:18-30 | throws WrongConfirmationHash exactly on a wrong hash, whatever the flag; otherwise only the flag goes up |
| MainFunctionalTraditionalCustomer2.ChangeEmailAddress | src/main/java/domain/functional/traditional/customer/Customer2.java:32-40 | new address and hash, flag false, id and name kept |
| MainFunctionalTraditionalCustomer2.ConfirmAgreesWithEvents | src/main/java/domain/functional/traditional/customer/Customer2.java:18-30 | it throws exactly where the event-sourced table emits [Failed], and the resulting state agrees with the projection |
| MainFunctionalTraditionalCustomer2.ChangeEmailAddressAgreesWithEvents | src/main/java/domain/functional/traditional/customer/Customer2.java:32-40 | for a different address the new state agrees with the projection after the emitted change |
| MainFunctionalTraditionalCustomer2.ConfirmAfterChange | src/test/java/domain/functional/traditional/customer/Customer2Test.java:97-112 | after confirm and change only the new hash confirms again |
| OopTraditionalCustomer3.Customer3.constructor | src/domain/oop/traditional/customer/Customer3.java:19-24 | the fields from the arguments, flag false |
| OopTraditionalCustomer3.Customer3.Register | src/domain/oop/traditional/customer/Customer3.java:26-28 | the fields are those of the functional register |
| OopTraditionalCustomer3.Customer3.ConfirmEmailAddress | src/domain/oop/traditional/customer/Customer3.java:30-40 | steps exactly as the functional Customer4: a throw leaves every field, otherwise the fields become the returned state |
| OopTraditionalCustomer3.Customer3.ChangeEmailAddress | src/domain/oop/traditional/customer/Customer3.java:42-46 | steps exactly as the functional Customer4 |
| OopTraditionalCustomer3.Customer3.ChangeName | src/domain/oop/traditional/customer/Customer3.java:48-50 | steps exactly as the functional Customer4 |
| OopTraditionalCustomer3.ConfirmAfterChange | test/domain/oop/traditional/customer/Customer3Test.java:132-146 | after confirm and change a wrong hash throws and leaves the flag false; the new hash confirms |
| OopTraditionalCustomer3.ConfirmedAcceptsAnyHash | src/domain/oop/traditional/customer/Customer3.java:31-33 | once confirmed, any hash passes and the customer stays confirmed |
| MainOopTraditionalCustomer1.Customer1.constructor | src/main/java/domain/oop/traditional/customer/Customer1.java:19-24 | the fields from the arguments, flag false |
| MainOopTraditionalCustomer1.Customer1.Register | src/main/java/domain/oop/traditional/customer/Customer1.java:26-28 | the fields are those of the functional register |
| MainOopTraditionalCustomer1.Customer1.ConfirmEmailAddress | src/main/java/domain/oop/traditional/customer/Customer1.java:30-36 | steps exactly as the main functional Customer2: a throw leaves every field, otherwise the flag goes up |
| MainOopTraditionalCustomer1.Customer1.ChangeEmailAddress | src/main/java/domain/oop/traditional/customer/Customer1.java:38-42 | steps exactly as the main functional Customer2 |
| MainOopTraditionalCustomer1.ConfirmTwice | src/main/java/domain/oop/traditional/customer/Customer1.java:30-36 | confirming twice with the same hash gives the same outcome twice |
| MainOopTraditionalCustomer1.ConfirmedRejectsWrongHash | src/main/java/domain/oop/traditional/customer/Customer1.java:31-33 | a confirmed customer still rejects a wrong hash and stays confirmed |
| MainOopTraditionalCustomer1.ConfirmAfterChange | src/main/java/domain/oop/traditional/customer/Customer1.java:38-42 | a change lowers the flag, even to the same address, and only the new hash confirms afterwards |

## Left out

- Value classes and command constructors generate ids and hashes at random (`UUID`). Here the ids and hashes are ordinary inputs. Their `equals` compares string fields, which is Dafny's structural equality; Java reference identity is not modelled.
- Exceptions are values: `Failures.Exception` inside a `Result` or an `Outcome`. Messages are not modelled.
- A `NullPointerException` from calling `equals` with a null field is not modelled as an outcome; the member requires the field to be set instead. This happens when a handler runs on an aggregate that was never registered. It covers every confirm handler that compares a stored hash. It also covers the change handlers that compare with a stored value, except in the `src/main/java` OOP Customer1 and Customer2, whose `equals(Object)` tolerates null. (The `src/domain` value classes' `equals(T other)` dereferences its argument, so null fails on either side.)
- MainFunctionalEsCustomer7.ConfirmEmailAddress: the Java `assert x != null` (`src/main/java/domain/functional/es/customer/Customer7.java:38`) becomes a precondition. With assertions disabled, the following `equals` would throw instead; that is not modelled.
- MainFunctionalEsCustomer7.ChangeEmailAddress: likewise, the `assert` at `Customer7.java:60` becomes a precondition.
- MainFunctionalEsCustomer7.ChangeName: likewise, the `assert` at `Customer7.java:79` becomes a precondition.
- MainOopEsCustomer1.Customer1.GetRecordedEvents: returns the buffer's contents as a value. The Java method hands out the live list, so a caller's later changes to it would reach the aggregate; that aliasing is not modelled.
- FunctionalEsCustomer6.ConfirmEmailAddress: `src/domain/functional/es/customer/Customer6.java:29` names a field the state class does not declare. Code that does not compile has no behaviour to state, so there is no as-written member; the intended reading is modelled.
- MainFunctionalEsCustomer6.ConfirmEmailAddress: decides over the completed fold. `src/main/java/domain/functional/es/customer/CustomerState.java` has `// TODO` bodies and is not part of this model, nor are the other exercise stubs, `src/main/java/domain/oop/es/customer/Customer4.java` and `src/main/java/domain/functional/es/customer/Customer5.java`.
- MainFunctionalEsCustomer6.ChangeEmailAddress: decides over the completed fold too. With the stub state class as written, `current.emailAddress` stays null and the `equals` call at `Customer6.java:37` would throw; that is not modelled.
- The `src/main/java` state record of the functional traditional Customer2 and the `src/main/java` `PersonName` are not part of this model. The record is taken to have the same fields and constructors as the `src/domain` one. `PersonName` is taken to compare null-safely, like the `src/main/java` `EmailAddress`.
- The ghost `applied` history of the OOP event-sourced classes exists only for the proofs. Those classes have no id field, so their snapshots carry no id.
- Tests, test helpers and build files are sources of scenarios, not model targets.

## Findings

| source | as written | input that shows it | evidently intended | confidence | as-written member | corrected member |
|---|---|---|---|---|---|---|
| src/domain/functional/es/customer/Customer5.java:27 | `if (current.isConfirmed)` unboxes a `Boolean` that the state object leaves null until a Confirmed or Changed event is folded | the state folded from `[CustomerRegistered(id, email, h, name)]` and a confirm command with hash `h` end in a NullPointerException | an unset flag means "not confirmed", so the result is `[CustomerEmailAddressConfirmed(id)]` | high (not executed) | FunctionalEsCustomer5.ConfirmEmailAddressAsWritten, FunctionalEsCustomer5.RegisteredOnlyConfirmThrows | FunctionalEsCustomer5.ConfirmEmailAddress, FunctionalEsCustomer5.RegisteredOnlyConfirms |
