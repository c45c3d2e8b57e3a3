# ldmx-sw event bus and data-packing core, in Dafny

This project models the core of the LDMX software framework's event data handling:

- **The event bus.** Producers `add` named passengers, and consumers read them back with `getImpl`, by name and pass or by name alone. The passengers are tagged unions of a single event object, a vector of objects or a map of objects. Three visitors clear, sort and print them.
- **The bit-packed digi words.** The ECal, HGCROC and trigger-scintillator digi collections pack measurements into 32-bit words. The HCal digi detector id packs its section, layer, strip and side into one raw value.
- **The LCIO merge tool.** Its merge filters, its per-cell combination of calorimeter hits and its selection of which collections of a source event are merged into a target event.
- **The ntuple registry.** One shared manager of named trees and variables.

Each module follows one source file:

| module | file |
|---|---|
| `Wrappers` | `Option`, `Result` and `Outcome` types for error paths |
| `BitFields` | field extraction `(w / 2^s) % 2^k` (the C++ `(w >> s) & mask`), int32 wrap-around, and the division facts the round trips use |
| `Passengers` | `passenger.dfy`: the passenger union and its visitors |
| `EventBus` | `event.dfy`: class `Event` and the specification functions `AddSpec`, `LoadSpec` and `GetSpec` its methods are proved against |
| `EcalDigi` | `ecal_digi.dfy`: sample-word layout, decoding rule, collection settings |
| `HgcrocDigi` | `hgcroc_digi.dfy`: sample packing, `addDigi`, `getDigi`, `Clear` |
| `TrigScintDigi` | `trigscint_digi.dfy`: two-half sample packing and unpacking, the collection |
| `HcalDigiId` | `hcal_digi_id.dfy`: the HCal digi id bit layout on `bv32` |
| `LcioMerge` | `lcio_merge.dfy`: filters, `find`, `createSingleHit`, `combine`, `clear`, `addElements`, `mergeEvent` |
| `Ntuple` | `ntuple_manager.dfy`: `create`, `fill`, `clear`, `getInstance` |

State that the source changes in place is modelled by classes:
- `Event`;
- the digi collections;
- `LcCollection`;
- `NtupleManager` and its `Registry`.

Each method's postcondition ties the new state to a specification function of the old state, and the lemmas state what those functions promise.

## Model

| member | source | states |
|---|---|---|
| Passengers.ClearPassenger | Framework/include/Framework/Event.h:38-59 | clearing keeps the passenger's alternative, empties a vector or map, and applies the object's own Clear to a single object |
| Passengers.ClearIdempotent | Framework/include/Framework/Event.h:38-59 | clearing twice equals clearing once when the objects' Clear is idempotent |
| Passengers.Insert | Framework/include/Framework/Event.h:76-90 | inserting lengthens the vector by one and puts at its head either the element or the old head |
| Passengers.InsertPerm | Framework/include/Framework/Event.h:76-90 | inserting adds exactly one copy of the element and keeps every other object |
| Passengers.InsertSorted | Framework/include/Framework/Event.h:76-90 | inserting into a vector sorted by key keeps it sorted |
| Passengers.SortObjects | Framework/include/Framework/Event.h:76-90 | std::sort's result is sorted by operator< and is a permutation of the input |
| Passengers.SortPassenger | Framework/include/Framework/Event.h:76-90 | a vector passenger is sorted (same multiset of objects); objects and maps are unchanged |
| Passengers.NatToStringDecimal | Framework/include/Framework/Event.h:99-157 | the size printed is written in decimal digits only, with no leading zero, and denotes the size |
| Passengers.PrintVerbosity | Framework/include/Framework/Event.h:99-157 | at verbosity 0 nothing is printed; at 1 a vector or map prints just its size; above 1 it prints its size line, then "Contents:", in Size + 3 lines; a single object prints one line at any level above 0 |
| Passengers.PrintContents | Framework/include/Framework/Event.h:99-157 | above verbosity 1, line i + 2 is the i-th vector element indented, or the i-th map entry as key -> object in key order, and the last line is empty |
| EventBus.NameOf | Framework/include/Framework/Event.h:525-527 | the name part of a branch id is an underscore-free prefix of it |
| EventBus.NameOfBranch | Framework/include/Framework/Event.h:525-527 | an underscore-free collection name is recovered from its branch id |
| EventBus.BranchNameRoundTrip | Framework/include/Framework/Event.h:525-527 | makeBranchName is undone by splitting at the first underscore: both name and pass come back |
| EventBus.PrefixNamesBranch | Framework/include/Framework/Event.h:373-376 | for underscore-free names, branch `n'_pass` has prefix `n_` iff n == n' |
| EventBus.PrefixMatches | Framework/include/Framework/Event.h:372-376 | the prefix scan returns no more names than are listed |
| EventBus.PrefixMatchesMembers | Framework/include/Framework/Event.h:372-376 | a name is among the matches iff it is listed and starts with the prefix |
| EventBus.AddIllegalName | Framework/include/Framework/Event.h:231-237 | a name containing an underscore is refused with IllegalName and the state is unchanged |
| EventBus.BranchIds | Framework/include/Framework/Event.h:239-241 | the event header's branch id is its bare name; every other is name_pass |
| EventBus.AddTwice | Framework/include/Framework/Event.h:243-250 | a second add of the same name in one event fails with ProductExists and changes nothing |
| EventBus.AddRegisters | Framework/include/Framework/Event.h:250-278 | a first add sets the passenger and appends one product tag and one branch name; it empties the lookup cache, marks the branch filled, and records an output branch iff an output tree exists |
| EventBus.AddExisting | Framework/include/Framework/Event.h:250-288 | an add to an existing passenger registers nothing and marks the branch filled; it succeeds iff the alternatives agree, replacing the passenger, and otherwise fails with TypeMismatch and keeps the passenger |
| EventBus.AddThenGet | Framework/include/Framework/Event.h:230-291 | after a successful add, getting the name with the current pass and the added type returns the added passenger |
| EventBus.GetByNameScan | Framework/include/Framework/Event.h:367-405 | getting by name alone, uncached: no match is ProductNotFound, several are ProductAmbiguous listing them (state unchanged), one is cached |
| EventBus.LoadKeepsLookups | Framework/include/Framework/Event.h:407-495 | loading a passenger never changes the cache, branch names, product tags or filled set |
| EventBus.AddKeepsCache | Framework/include/Framework/Event.h:270-272 | add keeps every cached lookup equal to the unique branch with prefix `name_` |
| EventBus.GetKeepsCache | Framework/include/Framework/Event.h:399-403 | getImpl caches only unique prefix matches, so the cache stays consistent |
| EventBus.CacheTransparent | Framework/include/Framework/Event.h:366-405 | on a consistent cache, getting by name alone returns what a scan with an empty cache returns |
| EventBus.LoadIgnoresLookups | Framework/include/Framework/Event.h:407-495 | what a load returns depends only on the passengers and loaded branches |
| EventBus.TwoPassesAmbiguous | Framework/include/Framework/Event.h:372-398 | a name present under two passes is ambiguous when got by name alone |
| EventBus.SearchProducts | Framework/include/Framework/Event.h:300-301 | a tag is returned iff it is one of the products and the matcher accepts it, and no more tags come back than there are products |
| EventBus.SearchConcat | Framework/include/Framework/Event.h:300-301 | the search keeps the products' order: searching a concatenation concatenates the results |
| EventBus.SearchOne | Framework/include/Framework/Event.h:219-221 | the search returns one tag iff exactly one product matches, and none iff no product matches |
| EventBus.ProductExistsIn | Framework/include/Framework/Event.h:219-221 | exists(name, pass) holds iff exactly one product tag matches |
| EventBus.Event.Exists | Framework/include/Framework/Event.h:219-221 | the event's exists holds iff exactly one of its product tags matches |
| EventBus.Event.ExistsAnyPass | Framework/include/Framework/Event.h:208-210 | exists(name) is exists with an empty pass |
| EventBus.Event.constructor | Framework/include/Framework/Event.h:581-641 | a new event has an empty bus and the given settings |
| EventBus.Event.Register | Framework/include/Framework/Event.h:251-273 | registering a new branch updates the fields as RegisterSpec says |
| EventBus.Event.Add | Framework/include/Framework/Event.h:230-291 | add's new state and outcome are AddSpec's |
| EventBus.Event.ScanBranchNames | Framework/include/Framework/Event.h:372-376 | the loop collects exactly the prefix matches, in list order |
| EventBus.FirstLoadReadsEntry | Framework/include/Framework/Event.h:456-494 | the first get of an input branch stores and returns the entry at the current index (0 before the first event), or the branch's object when there is no such entry, and marks the branch loaded; it fails exactly when the type differs |
| EventBus.LoadSpecAsWritten | Framework/include/Framework/Event.h:456-494 | as written, a first load stores the branch's object as it was before the entry is read |
| EventBus.AsWrittenFirstLoadStale | Framework/include/Framework/Event.h:477-488 | as written, the first get at entry 0 of a branch holding one hit returns the empty pre-read vector, while reading first returns the hit |
| EventBus.Event.Load | Framework/include/Framework/Event.h:407-495 | the loading half of getImpl follows LoadSpec |
| EventBus.Event.GetImpl | Framework/include/Framework/Event.h:359-496 | getImpl's new state and result are GetSpec's |
| EcalDigi.DecodeSample | Event/include/Event/EcalDigiCollection.h:128-150 | the TOA is the third measurement; the two flags choose whether the first two are (adc t-1, adc t), (adc t-1, tot) or (adc t, tot); the unset field stays -1, and every set field is a ten-bit value in [0, 1023] |
| EcalDigi.EcalDigiCollection.constructor | Event/include/Event/EcalDigiCollection.h:193-202 | a new collection is empty with 1 sample per digi and sample of interest 0 |
| EcalDigi.EcalDigiCollection.GetNumDigis | Event/include/Event/EcalDigiCollection.h:156 | the number of digis is the number of channel ids |
| EcalDigi.EcalDigiCollection.SetNumSamplesPerDigi | Event/include/Event/EcalDigiCollection.h:111-116 | the getter returns what the setter stored |
| EcalDigi.EcalDigiCollection.SetSampleOfInterestIndex | Event/include/Event/EcalDigiCollection.h:121-126 | the getter returns what the setter stored |
| EcalDigi.EcalDigiCollection.Clear | Event/include/Event/EcalDigiCollection.h:94-99 | clearing leaves no channel ids, no samples and zero digis |
| HgcrocDigi.Saturate | Event/src/HgcrocDigiCollection.cxx:17-24 | a measurement is capped at 1023 and then masked to ten bits |
| HgcrocDigi.PackSample | Event/src/HgcrocDigiCollection.cxx:8-26 | the packed word is a 32-bit pattern |
| HgcrocDigi.PackSampleFields | Event/src/HgcrocDigiCollection.cxx:8-26 | each flag reads back as given, and each measurement reads back saturated, the second after TOT packing |
| HgcrocDigi.PackTotFitsTenBits | Event/src/HgcrocDigiCollection.cxx:10-15 | a 12-bit TOT above 512 packs to 512 + tot/8, which fits ten bits without saturating |
| HgcrocDigi.DecodePackedSample | Event/src/HgcrocDigiCollection.cxx:8-26 | decoding a sample packed from in-range values gives back the flags and measurements in the roles the flags select |
| HgcrocDigi.AdcTIsDecoded | Event/src/HgcrocDigiCollection.cxx:76-82 | the ADC addDigi sums is the decoded current-clock ADC |
| HgcrocDigi.AdcTs | Event/src/HgcrocDigiCollection.cxx:77-83 | one entry per sample, in sample order, each the sample's current-clock ADC |
| HgcrocDigi.AddDigiKeepsShape | Event/src/HgcrocDigiCollection.cxx:63-94 | addDigi keeps exactly numSamplesPerDigi samples per channel id, also when it fails after pushing the id |
| HgcrocDigi.MaxAdcIsMaximum | Event/src/HgcrocDigiCollection.cxx:74-83 | the running maximum is 0 or one of the ADCs, and no ADC exceeds it |
| HgcrocDigi.AccumulateAdc | Event/src/HgcrocDigiCollection.cxx:73-83 | the loop computes the ADC sum and the running maximum |
| HgcrocDigi.AddDigiSizeMismatch | Event/src/HgcrocDigiCollection.cxx:65-70 | a digi of the wrong size is refused and nothing changes |
| HgcrocDigi.AddDigiAppends | Event/src/HgcrocDigiCollection.cxx:72-93 | a successful addDigi appends the id and exactly the digi's samples, and one entry per per-digi vector: ADC sum, maximum (at least every ADC and 0), first ADC |
| HgcrocDigi.HgcrocDigiCollection.constructor | Event/src/HgcrocDigiCollection.cxx:28-44 | a new collection has all vectors empty and is valid (numSamplesPerDigi samples per channel id) |
| HgcrocDigi.HgcrocDigiCollection.Clear | Event/src/HgcrocDigiCollection.cxx:28-44 | Clear empties all eleven vectors, which leaves the collection valid |
| HgcrocDigi.HgcrocDigiCollection.GetDigi | Event/src/HgcrocDigiCollection.cxx:57-60 | on a valid collection, getDigi succeeds iff the index is below the number of digis, and returns that channel id and its numSamplesPerDigi samples starting at index * numSamplesPerDigi |
| HgcrocDigi.HgcrocDigiCollection.PushDigi | Event/src/HgcrocDigiCollection.cxx:76-92 | the pushes after the channel id append the samples, their ADCs and one entry per per-digi vector |
| HgcrocDigi.HgcrocDigiCollection.AddDigi | Event/src/HgcrocDigiCollection.cxx:63-94 | addDigi changes the vectors and returns the outcome exactly as AddDigiSpec says, and keeps the collection valid |
| HgcrocDigi.HgcrocDigiCollection.AddThenGet | Event/src/HgcrocDigiCollection.cxx:57-94 | adding a digi of the configured size and getting the last digi returns the added id and samples |
| TrigScintDigi.Clamp | Event/src/TrigScintDigiCollection.cxx:24-30 | the overflow check returns the value or the mask, never more than either |
| TrigScintDigi.PackWord | Event/src/TrigScintDigiCollection.cxx:32-40 | the packed word is an int32 congruent to the shifted sum modulo 2^32 |
| TrigScintDigi.UnpackSample | Event/src/TrigScintDigiCollection.cxx:48-65 | every unpacked field lies within its mask |
| TrigScintDigi.HalfLayout | Event/include/Event/TrigScintDigiCollection.h:79-104 | the three fields tile 16 bits, and the front half is the back half shifted by 16 |
| TrigScintDigi.UnpackPackWord | Event/src/TrigScintDigiCollection.cxx:17-65 | unpacking a packed non-negative sample gives its clamped fields |
| TrigScintDigi.RoundTrip | Event/src/TrigScintDigiCollection.cxx:17-65 | in-range samples round-trip exactly, apart from the raw id |
| TrigScintDigi.Saturates | Event/src/TrigScintDigiCollection.cxx:24-30 | an over-range field reads back as its mask |
| TrigScintDigi.DefaultRoundTrip | Event/include/Event/TrigScintDigiCollection.h:22-42 | the default sample round-trips |
| TrigScintDigi.PackWords | Event/src/TrigScintDigiCollection.cxx:22-41 | the loop packs every sample, in order |
| TrigScintDigi.TrigScintDigiCollection.constructor | Event/include/Event/TrigScintDigiCollection.h:58-59 | a new collection is empty |
| TrigScintDigi.TrigScintDigiCollection.GetSample | Event/src/TrigScintDigiCollection.cxx:48-65 | getSample succeeds iff both indices are in range, and unpacks that word with the digi's channel id |
| TrigScintDigi.TrigScintDigiCollection.GetDigi | Event/src/TrigScintDigiCollection.cxx:7-15 | getDigi succeeds iff every sample of the digi does, returning them in order |
| TrigScintDigi.TrigScintDigiCollection.AddDigi | Event/src/TrigScintDigiCollection.cxx:17-46 | an empty digi fails with nothing changed; otherwise the first sample's id and every packed word are appended |
| TrigScintDigi.TrigScintDigiCollection.AddThenGet | Event/src/TrigScintDigiCollection.cxx:7-65 | adding in-range samples and getting the new digi returns them with the first sample's raw id |
| HcalDigiId.SectionCode | DetDescr/include/DetDescr/HcalDigiID.h:25-31 | each section's code fits the section mask |
| HcalDigiId.FromPieces | DetDescr/include/DetDescr/HcalDigiID.h:66-71 | the piecewise constructor leaves the bits above the fields as the base id's |
| HcalDigiId.Extracts | DetDescr/include/DetDescr/HcalDigiID.h:66-136 | each accessor reads back its masked constructor argument, whatever the others are |
| HcalDigiId.RoundTrip | DetDescr/include/DetDescr/HcalDigiID.h:66-136 | in-range section, layer, strip and side read back exactly |
| HcalDigiId.SectionRoundTrip | DetDescr/include/DetDescr/HcalDigiID.h:25-31 | a named section reads back as its code |
| HcalDigiId.Independent | DetDescr/include/DetDescr/HcalDigiID.h:33-40 | the four fields are disjoint: changing one argument leaves the other three accessors unchanged |
| HcalDigiId.Aliases | DetDescr/include/DetDescr/HcalDigiID.h:78-136 | each long-form accessor equals its short form |
| LcioMerge.CRem | SimApplication/include/SimApplication/LcioMergeTool.h:104-106 | C++'s remainder is smaller than the modulus, has the dividend's sign, and is zero iff the modulus divides the dividend |
| LcioMerge.Skip | SimApplication/include/SimApplication/LcioMergeTool.h:104-114 | the modulus filter skips iff its modulus does not divide the event number; the default modulus 1 never skips; other filters never skip |
| LcioMerge.BaseFilterNeutral | SimApplication/include/SimApplication/LcioMergeTool.h:53-64 | the base filter accepts every source event and skips no target event |
| LcioMerge.AcceptAll | SimApplication/include/SimApplication/LcioMergeTool.h:306-313 | accept is true iff every filter accepts, so true for no filters |
| LcioMerge.SkipAny | SimApplication/include/SimApplication/LcioMergeTool.h:318-325 | skip is true iff some filter skips, so false for no filters |
| LcioMerge.Matching | SimApplication/include/SimApplication/LcioMergeTool.h:393-402 | every found hit has the searched cell id |
| LcioMerge.MatchingConcat | SimApplication/include/SimApplication/LcioMergeTool.h:393-402 | the found hits keep collection order (the search distributes over concatenation) |
| LcioMerge.MatchingComplete | SimApplication/include/SimApplication/LcioMergeTool.h:393-402 | every hit with the searched cell id is found |
| LcioMerge.Find | SimApplication/include/SimApplication/LcioMergeTool.h:393-402 | the loop returns exactly the hits with the search hit's cell ids, in order |
| LcioMerge.ContributionsConcat | SimApplication/include/SimApplication/LcioMergeTool.h:377-386 | contributions of a list of hits concatenate in list order |
| LcioMerge.ContributionsSingle | SimApplication/include/SimApplication/LcioMergeTool.h:377-386 | one hit contributes exactly its own contributions |
| LcioMerge.CreateSingleHit | SimApplication/include/SimApplication/LcioMergeTool.h:368-388 | an empty list is a fatal error; otherwise the first hit's cell ids and position with every contribution in order |
| LcioMerge.CellsSeen | SimApplication/include/SimApplication/LcioMergeTool.h:344-354 | every recorded cell is the cell of one of the processed hits |
| LcioMerge.CellsCover | SimApplication/include/SimApplication/LcioMergeTool.h:344-354 | every processed hit's cell is recorded at some position |
| LcioMerge.CellsDistinct | SimApplication/include/SimApplication/LcioMergeTool.h:344-354 | the recorded cells are pairwise distinct |
| LcioMerge.CellsOrder | SimApplication/include/SimApplication/LcioMergeTool.h:344-354 | a cell recorded earlier already occurs before any hit of a cell recorded later |
| LcioMerge.CombineStep | SimApplication/include/SimApplication/LcioMergeTool.h:344-354 | one loop step: a hit on an unseen cell appends the merge of its cell and records the id; a hit on a seen cell changes nothing |
| LcioMerge.CombineHits | SimApplication/include/SimApplication/LcioMergeTool.h:339-363 | the loop over the hits with the processed-id set computes Combined of them |
| LcioMerge.CombineUpToMerged | SimApplication/include/SimApplication/LcioMergeTool.h:344-354 | every combined hit merges all hits of its cell |
| LcioMerge.CombineUpToCells | SimApplication/include/SimApplication/LcioMergeTool.h:344-354 | the combined hits cover exactly the processed cells |
| LcioMerge.CombineUpToDistinct | SimApplication/include/SimApplication/LcioMergeTool.h:344-354 | no two combined hits share a cell |
| LcioMerge.CombineUpToOrder | SimApplication/include/SimApplication/LcioMergeTool.h:344-354 | combined hits are in order of their cells' first occurrence |
| LcioMerge.CombinedShape | SimApplication/include/SimApplication/LcioMergeTool.h:339-363 | combine leaves one hit per distinct cell, in first-occurrence order, no two sharing a cell, each merging all of its cell's hits |
| LcioMerge.CombineDistinct | SimApplication/include/SimApplication/LcioMergeTool.h:339-363 | a collection of hits on distinct cells keeps as many hits |
| LcioMerge.LcCollection.constructor | SimApplication/include/SimApplication/LcioMergeTool.h:189 | a new collection is empty with the given type name |
| LcioMerge.LcCollection.Clear | SimApplication/include/SimApplication/LcioMergeTool.h:221-225 | clear leaves zero elements |
| LcioMerge.LcCollection.AddElements | SimApplication/include/SimApplication/LcioMergeTool.h:330-334 | addElements appends the source's elements in order |
| LcioMerge.LcCollection.Combine | SimApplication/include/SimApplication/LcioMergeTool.h:339-363 | combine replaces the elements by Combined of the old ones |
| LcioMerge.AsWrittenNeverCreates | SimApplication/include/SimApplication/LcioMergeTool.h:167-192 | as written, a merge that succeeds never adds a collection to the target |
| LcioMerge.AsWrittenFailsOnNewCollection | SimApplication/include/SimApplication/LcioMergeTool.h:167-192 | as written, merging a source collection the target lacks fails; looking the name up in the target adds it |
| LcioMerge.MergeSelection | SimApplication/include/SimApplication/LcioMergeTool.h:173-192 | merging never fails; it adds exactly the selected source collections the target lacked (selected = writeColls empty or naming it) and leaves unselected target collections unchanged |
| LcioMerge.MergeContentsAt | SimApplication/include/SimApplication/LcioMergeTool.h:176-209 | on distinct names, a selected collection ends as the source's when the target lacked it; otherwise the target's with the source elements appended, combined exactly when both are calorimeter hits, combining is on and the target already had elements |
| LcioMerge.MergeEventContents | SimApplication/include/SimApplication/LcioMergeTool.h:164-216 | mergeEvent on an event with distinct names never fails, adds exactly the selected collections the target lacked, holding the source elements, merges the others as MergeContentsAt says, and leaves unselected target collections unchanged |
| LcioMerge.MergeCombinesNonEmpty | SimApplication/include/SimApplication/LcioMergeTool.h:194-209 | the element-count test holds iff the target collection already had elements: an empty one takes the source hits as they are, a non-empty one is combined |
| LcioMerge.MergeEvent | SimApplication/include/SimApplication/LcioMergeTool.h:164-216 | the merge loop visits the source collections in order, with the target lookup consulting the target |
| Ntuple.Filled | Framework/src/NtupleManager.cxx:33-43 | filling keeps the tree names and adds one entry to each tree |
| Ntuple.Cleared | Framework/src/NtupleManager.cxx:45-52 | clearing keeps the variable names and sets each to -9999 |
| Ntuple.ClearIdempotent | Framework/src/NtupleManager.cxx:45-52 | clearing twice equals clearing once |
| Ntuple.EmptyDoesNothing | Framework/src/NtupleManager.cxx:37-47 | fill with no trees and clear with no variables change nothing |
| Ntuple.NtupleManager.constructor | Framework/src/NtupleManager.cxx:8 | a new manager has no trees and no variables |
| Ntuple.NtupleManager.Create | Framework/src/NtupleManager.cxx:18-31 | a duplicate name is an error and changes nothing; a new name adds exactly one tree, named and titled by it |
| Ntuple.NtupleManager.Fill | Framework/src/NtupleManager.cxx:33-43 | fill updates the trees as Filled says |
| Ntuple.NtupleManager.Clear | Framework/src/NtupleManager.cxx:45-52 | clear updates the variables as Cleared says |
| Ntuple.Registry.GetInstance | Framework/src/NtupleManager.cxx:10-16 | the first call creates an empty manager; every later call returns that same manager |
| Ntuple.Registry.GetInstanceTwice | Framework/src/NtupleManager.cxx:10-16 | two calls return the same manager |

## Left out

- **ROOT trees and branches.** `TTree`/`TBranch` addresses, `GetEntry`, `SetAddress`, `SetAutoDelete`, `SetStatus` and the `TBranchElement` casts are not modelled:
  - the input tree is a map from branch id to a column of entries (with the object a branch holds before any read);
  - the output tree is only a flag;
  - an output branch is recorded by its branch id.

  On a later get of a loaded branch (Event.h:411-419) the entry is read and then copied, which is what the model does. The first load (Event.h:477-488) copies before reading. The model reads first there too, and `EventBus.LoadSpecAsWritten` keeps the order as written (see "## Findings").
- **Type names.** The type name stored in a product tag is the passenger's compiler-level name. The class name that a `TBranchElement` reports is not modelled.
- **Passengers.** An event object is its sort key and opaque content. Its own `Clear` and `Print` are function parameters.
  - `Passengers.Sorted`: std::sort's ordering is taken to be on that key.
  - A map passenger's keys are `int`, held as an ordered list of entries.
- **Casts.** `boost::get<T>` on the wrong alternative, which throws in the source, is modelled as the `BadGet` error.
- **Event operations with no body in the source.** `setInputTree`, `setOutputTree`, `createTree`, `nextEvent`, `beforeFill`, `Clear`, `Print`, `onEndOfEvent` and `onEndOfFile` are only declared in Event.h. Their definitions are not part of this model.
- **`searchProducts`.** Its definition is not part of this model. Its case-insensitive regular-expression matching is a parameter: a predicate on a product tag.
- **Unseen headers.**
  - `HgcrocDigiCollection.h` is not part of this model. Its `Sample::adc_t()` is taken to read the word as the ECal decoding rule does, and the two settings are constructor arguments.
  - The `DigiCollection` base of the trigger-scintillator collection is not part of this model. Its storage is a list of channel ids and a flat list of words; `addDigi` appends one id and the words, and `getSampleWord` indexes them.
  - The `DetectorID` base of the HCal digi id, its subdetector test and `HcalDigiID.cxx` are not part of this model. The empty HCal id is the `base` parameter.
  - `NtupleManager.h` is not part of this model. Variables are named integer values, and trees are counted entries.
- **Trigger-scintillator packing.**
  - The packed word in `TrigScintDigiCollection::addDigi` is assigned to a `word` that the file does not declare. It is modelled as an `int32_t`, wrapping modulo 2^32.
  - `TrigScintDigi.UnpackPackWord`: negative field values are not covered, because C++ left shifts of negative values are undefined.
- **`EcalEnergyFilter`.** Its floating-point sum of hit energies is not modelled: an event carries the sum as `ecalEnergy`, which the filter compares with its cut.
- **LCIO merge I/O.** The reader, `mergeEvents`' reading loop, `addFile`, `initialize`, the messenger and the verbose printing are not modelled. So are the source event's loss of its taken collections and the deletion of objects.
- **LCIO event representation.** The merge on whole events is modelled on values rather than objects. Every collection holds calorimeter-hit records.
- **Hit energy and pointer identity.** A combined hit's total energy, which LCIO's own `addMCParticleContribution` maintains, and the identity of hit pointers are not modelled.
- `LcioMerge.ValidFilter`: an event-modulus filter with modulus 0 is excluded. The source's `%` would divide by zero (LcioMergeTool.h:104-106).
- `LcioMerge.MergeContentsAt`: collection names are taken to be distinct, as LCIO keys an event's collections by name. A name listed twice would be merged twice.
- `LcioMerge.LcCollection.AddElements`: merging a collection into itself is excluded. The source's loop would never end on it.
- `Ntuple.NtupleManager.Fill`: a ROOT `Fill` is modelled as one more entry per tree. The values written are not modelled.

## Findings

| source | as written | input that shows it | evidently intended | confidence | as-written member | corrected member |
|---|---|---|---|---|---|---|
| SimApplication/include/SimApplication/LcioMergeTool.h:170 | `targetCollNames` is taken from the source event, so every selected collection is looked up in the target as if it existed there | a source event with an "EcalHits" collection merged into a target with no collections: the target lookup finds nothing, and LCIO's getCollection reports the missing collection | the names are taken from the target, so a collection the target lacks is created and filled with the source's elements | high (not executed) | LcioMerge.AsWrittenFailsOnNewCollection | LcioMerge.MergeEventContents |
| Framework/include/Framework/Event.h:477-488 | on the first get of an input branch the passenger is copied from the branch's object (line 478) before `GetEntry` reads the current entry into it (line 488), so the copy holds what the branch held before the read | entry 0 of a vector branch holds one hit and the branch's object is still empty: the first get at entry 0 returns the empty vector | read the entry first, then copy, as the later-get path at lines 411-419 does | medium (not executed) | EventBus.AsWrittenFirstLoadStale | EventBus.FirstLoadReadsEntry |
