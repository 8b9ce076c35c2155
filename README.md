# Copy-on-write collection, farm ordering and task allocation

This project models three small stateful pieces of `main.swift`. Their properties are proved in Dafny.

- **`CopyOnWrite`** (`CopyOnWrite.dfy`) models `IOSCollection`, a value wrapper around a shared `NSMutableArray`.
  - The array is the class `Storage`. Its identity is Dafny object identity.
  - `refCount` is the runtime's count of strong references to the array. A plain variable such as the demo's `arr` counts. The ghost set `holders` names the collections among those references.
  - Every Swift variable of the struct type is one `IOSCollection` object that holds a `data` handle.
  - `append` copies unless `isKnownUniquelyReferenced` holds, which here means `refCount == 1`. `appendWOCopy` writes into the shared array.
  - The proofs state who observes a write and who does not. A uniquely referenced array has no holder besides the writer. After a copying append, every other collection keeps its handle and its contents.
- **`Farm`** (`Farm.dfy`) models the comparator and the in-place sort of `printFarm`.
  - Entries are ordered by `order`, then by lowercased label.
  - The comparator is proved to be a strict weak order: irreflexive, asymmetric and transitive. Two entries tie exactly when they have the same `order` and the same lowercased label.
  - The sort is proved to return a permutation of its input, sorted under that order.
- **`Staffing`** (`Staffing.dfy`) models `Company`.
  - `writeCode` records a task of `n` specialists only when the total already in use plus `n` fits in `numberOfProgrammers`.
  - `stopCoding` pops the last task.
  - Both keep this invariant: every running total of `usedProgrammers` is at most `numberOfProgrammers`.
  - Swift's `Int` is 64 bits wide and traps on overflow. The model writes this out: `reduce(0, +)` and the two subtractions of the capacity test (line 261) produce the outcome `Trapped` when they overflow.

Details of the code that the model keeps:
- The demonstration builds both collections from the array with `init(data: NSMutableArray)`, not one from the other.
- There is no invalid-handle error: the handles are non-optional references.
- Because the variable `arr` also holds the array, it is referenced three times when `coll2.append` runs.

## Model

| member | source | states |
|---|---|---|
| CopyOnWrite.Storage.constructor | main.swift:37 | a new array is empty and held by the one variable it is assigned to |
| CopyOnWrite.Storage.Add | main.swift:28 | `add(_:)` (also called at lines 32 and 38-39) appends the element to this array in place, whoever else holds it: contents become old contents plus the element, reference count and holders unchanged |
| CopyOnWrite.Storage.Retain | main.swift:11-17 | the runtime's retain when a collection takes the reference (`self.data = data` at line 12, `self = data` at line 16): one more reference and this collection added to the holders, elements unchanged |
| CopyOnWrite.Storage.Release | main.swift:20 | the runtime's release of the old array when `data` is rebound: one reference fewer and this collection removed from the holders, elements unchanged |
| CopyOnWrite.Storage.MutableCopy | main.swift:20 | `mutableCopy()` gives a fresh array with the same elements, held once |
| CopyOnWrite.IOSCollection.IsKnownUniquelyReferenced | main.swift:25 | the runtime check is true exactly when the storage's reference count is 1; its consequence for the holders is stated by the next two rows |
| CopyOnWrite.IOSCollection.HoldersWhenUnique | main.swift:25 | when the storage is referenced once, this collection is its only holder |
| CopyOnWrite.IOSCollection.SoleHolder | main.swift:25 | no other valid collection shares a uniquely referenced storage, so writing in place is invisible to others |
| CopyOnWrite.IOSCollection.FromStorage | main.swift:11-13 | `init(data: NSMutableArray)` shares the given array (same object, contents untouched), adds one reference, and leaves every other collection valid and unchanged |
| CopyOnWrite.IOSCollection.FromCollection | main.swift:15-17 | `init(data: IOSCollection)` shares the other collection's array (same object, same elements) and adds one reference |
| CopyOnWrite.IOSCollection.Detach | main.swift:20 | rebinding to `mutableCopy()`: fresh storage, same elements, held by this collection alone; the old array keeps its contents and loses this holder and one reference; no other collection changes |
| CopyOnWrite.IOSCollection.Copy | main.swift:19-22 | `copy()` moves the collection to fresh storage with the same elements and returns a collection sharing it (held twice); the old array keeps its elements and loses this holder and one reference; every other collection keeps its handle and contents |
| CopyOnWrite.IOSCollection.Append | main.swift:24-29 | contents become old contents plus the element; the storage stays the same object exactly when it was uniquely referenced, otherwise it is fresh, and the old array keeps its elements and loses this holder and one reference; afterwards the storage is held once; every other collection keeps its handle and contents |
| CopyOnWrite.IOSCollection.AppendWithoutCopy | main.swift:31-33 | storage identity is unchanged; every collection on that storage sees the new element; collections on other storage are unchanged |
| CopyOnWrite.WriteThroughScenario | main.swift:37-47 | after both collections are built on `arr` and `appendWOCopy("IOSv3")` runs, both still hold `arr` (referenced three times) and both show the three elements |
| CopyOnWrite.Scenario | main.swift:37-55 | after the steps above and `append("IOSv4")`, `coll1` still holds `arr` with three elements and `coll2` holds other storage with four |
| Farm.Lower | main.swift:209 | lowercasing keeps the length, maps each letter to lower case and leaves no upper-case letter |
| Farm.StringLess | main.swift:209 | Swift's `String <` as code-point lexicographic order: a string is never less than itself, and a proper prefix is less than each of its extensions |
| Farm.StringLessAsymmetric | main.swift:209 | label `<` is asymmetric |
| Farm.StringLessTransitive | main.swift:209 | label `<` is transitive |
| Farm.StringLessTotal | main.swift:209 | two different labels are ordered one way or the other |
| Farm.StringNotLessTransitive | main.swift:209 | "not less" on labels is transitive |
| Farm.Before | main.swift:207-213 | the comparator closure: with equal `order` it compares the lowercased labels with `StringLess`, otherwise the smaller `order` comes first; its order properties are the lemmas below |
| Farm.BeforeIrreflexive | main.swift:207-213 | no entry comes before itself |
| Farm.BeforeAsymmetric | main.swift:207-213 | the comparator is asymmetric |
| Farm.BeforeTransitive | main.swift:207-213 | the comparator is transitive |
| Farm.BeforeTies | main.swift:208-209 | two entries are unordered exactly when they have equal `order` and equal lowercased labels |
| Farm.NotBeforeTransitive | main.swift:207-213 | "not before" chains, so a sorted order is well defined |
| Farm.SortedByKeys | main.swift:206-213 | a sorted list has `order` ascending and, within one `order`, lowercased labels ascending |
| Farm.SortFarm | main.swift:206-213 | the array ends sorted by the comparator and is a permutation of its input |
| Staffing.CheckedSum | main.swift:261 | `reduce(0, +)` yields the total exactly when no running total leaves the 64-bit range |
| Staffing.Decide | main.swift:260-268 | the three outcomes are told apart exactly: the result is `Trapped` exactly when a running total of the sum or one of the two subtractions leaves the 64-bit range; otherwise it is `Started` exactly when the total used plus `n` fits and `NotEnough` exactly when it does not; a refusal reports `numberOfProgrammers` minus the total used, which is less than `n` |
| Staffing.PopLast | main.swift:272 | `popLast()` drops exactly the last element and does nothing on an empty list |
| Staffing.TotalWithinCapacity | main.swift:261-263 | under the invariant, the total in use is at most `numberOfProgrammers` |
| Staffing.WriteKeepsCapacity | main.swift:260-268 | an accepted or refused `writeCode` keeps every running total within the staff |
| Staffing.PopKeepsCapacity | main.swift:270-273 | `stopCoding` keeps every running total within the staff |
| Staffing.Company.constructor | main.swift:251-258 | a new company has the given staff and no tasks |
| Staffing.Company.WriteCode | main.swift:260-268 | the outcome is the decision above; the task is appended exactly when it starts, otherwise nothing changes; the invariant is kept |
| Staffing.Company.StopCoding | main.swift:270-273 | removes only the last task, is a no-op on no tasks, and keeps the invariant |
| Staffing.Scenario | main.swift:277-284 | with 50 programmers: 45 starts, 10 is refused with 5 free, and after a stop 10 starts; in the end no task is running |

## Left out

- All console output is left out. This covers the address printing with `Unmanaged.passUnretained(...).toOpaque()`, the messages of `writeCode` and `stopCoding`, and the printing loop of `printFarm`. Storage identity is object identity instead.
- The Swift/Objective-C runtime's reference counting is replaced by the explicit `refCount` field. The model takes `isKnownUniquelyReferenced` to be exact: `refCount == 1`. It does not model what the runtime answers for an Objective-C object.
- The temporary collection that `copy()` returns in `self = self.copy()` inside `append` is folded into `Detach`. The returned value replaces `self` at once, so only the rebinding is observable.
- `NSMutableArray(capacity: 16)` is modelled without its capacity: the reservation has no observable effect.
- The `Any` element type is replaced by a type parameter. The demonstration instantiates it with strings.
- `String.lowercased()` means Unicode case mapping, and `String <` uses Unicode ordering. The model lowercases ASCII letters only and compares characters by code point.
- `SortFarm` is an insertion sort. Swift's `sort(by:)` uses another algorithm. Both promise a sorted permutation, and the model proves only that, not which order tied entries end in.
- The label getters of `Student`, `Cow` and `Grass` are left out. An entry is its label and its fixed `order`.
- `Hotel`/`HotelAlfa`, the `GameDice` extension on `Int`, and `UselessProtocol`/`UselessClass` have no logic beyond printing and storing.
- The fields of `Company` that are never read are left out: `specialization`, `time` and `linesOfCode`. So is the `Platform` argument, which only appears in a message.
- A Swift overflow trap ends the program. `Company.WriteCode` models it as the outcome `Trapped` with the state unchanged.
