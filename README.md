# Keyed list store on PostgreSQL, modelled in Dafny

This project models the list store of NodeBB's PostgreSQL backend
(`src/database/postgres/list.ts`). The store emulates Redis-style lists on
two tables:

- `legacy_list` maps each key to one `TEXT[]` row.
- `legacy_object_live` holds each live key's registered type.

A row counts as a list only when its key is live with type `list`. Every
statement except the two upserts of `listPrepend` and `listAppend` joins on
`_key` and `type`, so a stray row of an unregistered key is invisible to
reads and untouched by pop, trim and removal. The two upserts conflict on
`_key` alone: they extend whatever row the key already has.

The model has four modules:

- `IndexWindow` (`window.dfy`) is the index translator. `stop` is
  incremented. A positive result gives `LIMIT stop - start OFFSET start`.
  Otherwise the array's length is added to the limit. The module gives the
  exact `LIMIT`/`OFFSET` semantics PostgreSQL applies, including its errors
  for a negative offset or limit. It also gives the NULL limit that
  `array_length` yields for an empty array. `Window` is proved equal to an
  independent definition of an inclusive window (`Requested`) whenever the
  query is accepted, and the lemmas show when it is rejected.
- `ArrayOps` (`arrays.dfy`) holds what the statements do to one array:
  reversal of a prepended batch, concatenation, and `array_remove`
  (`Without`). It also gives references that apply a batch one value at a
  time.
- `ListStore` (`store.dfy`) is a class `Store`. Its field `arrays` is the
  `legacy_list` table and its field `liveTypes` is the live registrations.
  It has one method per mutating operation, `modifies this`, and reads
  functions for `getListRange` and `listLength`. Each operation is one
  atomic step.
- `Scenarios` (`scenarios.dfy`) holds clients that use only the contracts.
  They run serialized pops and append-then-pop. They also run four
  examples: appending `[a, b]` then prepending `[x, y]`, popping
  `[a, b, c]`, removing a batch, and the `(1, -2)` window on
  `[a, b, c, d, e]`.

`listPrepend` reverses its batch before putting it in front. Prepending
`["x", "y"]` to `["a", "b"]` therefore gives `["y", "x", "a", "b"]`, as with
Redis `LPUSH`: the batch's left-to-right order is not kept at the front.
`ArrayOps.PrependIsPushEach` proves this reading.

## Model

| member | source | states |
|---|---|---|
| `IndexWindow.ArrayLength` | src/database/postgres/list.ts:193 | `array_length(arr, 1)` is NULL exactly for an empty array and the element count otherwise |
| `IndexWindow.Translate` | src/database/postgres/list.ts:116-145 | the offset is always `start`; the limit is NULL exactly for a tail-relative stop on an empty array; otherwise offset + limit is one past the last position the inclusive stop designates |
| `IndexWindow.LimitOffset` | src/database/postgres/list.ts:159-163 | a negative OFFSET is rejected first, then a negative LIMIT; otherwise the result holds the elements from position `offset` on, in order, at most `limit` of them, never past the end |
| `IndexWindow.Requested` | src/database/postgres/list.ts:13-14 | the reference inclusive window: element `i` of the result is `s[start + i]`, a position that exists and is not past the one `stop` designates; the length is the size of that clipped range |
| `IndexWindow.Window` | src/database/postgres/list.ts:154-184 | the translated query is accepted exactly when `start >= 0` and the window does not end before it starts (or the tail-relative limit is NULL); when accepted its result is the requested inclusive window |
| `IndexWindow.WholeWindow` | src/database/postgres/list.ts:154-170 | the window `(0, -1)` is the whole list, empty or not |
| `IndexWindow.TailRelativeExample` | src/database/postgres/list.ts:170-184 | on `[a, b, c, d, e]` the window `(1, -2)` is `[b, c, d]` |
| `IndexWindow.BranchesAgree` | src/database/postgres/list.ts:118-145 | a stop inside the list and the same position counted from the tail give the same window |
| `IndexWindow.WindowOfWindow` | src/database/postgres/list.ts:111-147 | an accepted window is returned, and reading it again whole gives that window back |
| `ArrayOps.Reverse` | src/database/postgres/list.ts:28-29 | the result has the input's length and holds its elements in the opposite order |
| `ArrayOps.PrependIsPushEach` | src/database/postgres/list.ts:28-36 | putting the reversed batch in front equals pushing its values onto the head one at a time |
| `ArrayOps.AppendIsPushEach` | src/database/postgres/list.ts:47-57 | concatenating the batch after the array equals pushing its values onto the tail one at a time |
| `ArrayOps.Without` | src/database/postgres/list.ts:102 | `array_remove`: no survivor is a removed value, every survivor comes from the array, and the result is no longer than the array |
| `ArrayOps.WithoutCounts` | src/database/postgres/list.ts:101-106 | removal keeps every other value exactly as many times as the array held it and drops every removed value |
| `ArrayOps.WithoutConcat` | src/database/postgres/list.ts:102 | removal acts on each part of a concatenation separately, so survivors keep their relative order |
| `ArrayOps.WithoutTwice` | src/database/postgres/list.ts:94-97 | removing one set of values and then another equals removing their union |
| `ArrayOps.WithoutPrefixStep` | src/database/postgres/list.ts:95 | removing a batch prefix's values and then the next value equals removing the longer prefix's values |
| `ArrayOps.RemoveEachIsWithout` | src/database/postgres/list.ts:94-97 | removing a batch one value at a time leaves exactly the elements that are none of the batch's values |
| `ArrayOps.RemoveEachOrderFree` | src/database/postgres/list.ts:94-97 | a batch removal does not depend on the order of its values |
| `ArrayOps.RemoveExample` | src/database/postgres/list.ts:98-108 | removing `a` from `[a, b, a, c, a]` leaves `[b, c]` |
| `ListStore.Store.EnsureListType` | src/database/postgres/list.ts:27 | registration succeeds exactly when the key is not live as another type, and makes it live as a list; on failure the error names the existing type and nothing changes |
| `ListStore.Store.ListPrepend` | src/database/postgres/list.ts:21-40 | an empty key or a type conflict changes nothing; otherwise the key is live as a list and its array becomes the reversed batch followed by the existing array (or the reversed batch alone), no other key changes |
| `ListStore.Store.ListAppend` | src/database/postgres/list.ts:42-60 | an empty key or a type conflict changes nothing; otherwise the key is live as a list and its array becomes the existing array followed by the batch (or the batch alone), no other key changes |
| `ListStore.Store.ListRemoveLast` | src/database/postgres/list.ts:62-87 | a value is returned exactly for a live non-empty list; it is the tail element, and the remaining array followed by it is the old array; otherwise nothing is returned and nothing is written |
| `ListStore.Store.RemoveValue` | src/database/postgres/list.ts:98-108 | the array of a live list loses every occurrence of the value; a key that is not live is left alone |
| `ListStore.Store.ListRemoveAll` | src/database/postgres/list.ts:89-109 | for a live list and non-empty key the array keeps exactly the elements that are none of the given values, in order; otherwise nothing changes |
| `ListStore.Store.RemoveValues` | src/database/postgres/list.ts:94-97 | for a live list the array keeps exactly the elements that are none of the batch's values, in order, which is what removing the values one at a time in the batch's order leaves; a key that is not live is left alone |
| `ListStore.Store.ListTrim` | src/database/postgres/list.ts:111-147 | a live list keeps exactly the accepted window, or stays as it was when the query is rejected; a key that is empty or not live is untouched; afterwards a whole-range read returns what the same window's read returned before |
| `ListStore.Store.GetListRange` | src/database/postgres/list.ts:149-187 | undefined exactly for an empty key; `[]` for a key with no live list; rejected exactly when the window is not accepted; otherwise the requested inclusive window |
| `ListStore.Store.ListLength` | src/database/postgres/list.ts:189-203 | 0 when the key holds no live list; otherwise `array_length` of its array (NULL when it is empty) |
| `ListStore.Store.LengthCountsRange` | src/database/postgres/list.ts:189-203 | for a live non-empty list the length equals the number of elements a whole-range read returns |
| `Scenarios.PopUntilEmpty` | src/database/postgres/list.ts:67-86 | pops run one after another return each element exactly once, tail first, and leave the list empty |
| `Scenarios.AppendThenPop` | src/database/postgres/list.ts:47-86 | appending a value to a live list and popping returns that value and restores both tables |

## Left out

- The `pg` pool, `module.transaction` and prepared-statement names are driver plumbing. Each operation is one atomic step, and a failed registration changes nothing.
- `helpers.ensureLegacyObjectType` is not part of this model. `ListStore.Store.EnsureListType` stands for it: it registers the key as a list or fails when the key is live as another type. The deletion of expired objects it performs first is not modelled, and neither is expiry in `legacy_object_live`.
- ListStore.Store.ListPrepend: the model does not delete a stray row of a key that is not live before the upsert. The registration step of the source first deletes expired objects, and their rows go with them. So in the source a prepend onto an expired key starts from an empty array. In the model it extends the stray row.
- ListStore.Store.ListAppend: for the same reason, an append onto a key whose stray row was left from an expired registration extends that row in the model. In the source it starts from an empty array.
- Concurrency is not modelled. The `FOR UPDATE` row lock of `listRemoveLast` and the parallel `Promise.all` of a batch removal become sequential steps. `Scenarios.PopUntilEmpty` gives the serialized outcome the lock guarantees.
- `ListStore.Store.ListRemoveLast`: on a live empty row the source writes a NULL array (`array_length` is NULL, so the slice is NULL). The model keeps the empty array, and the behaviour of later statements on a NULL array is not modelled.
- `ListStore.Store.ListRemoveLast`: for an empty key the source returns `undefined`, and `null` when nothing was popped. Both are `None` in the model.
- `start` and `stop` are JavaScript numbers cast to 32-bit `INTEGER`. Non-integral values, `INTEGER` overflow of `stop - start + length`, and failures of the cast are not modelled; both are unbounded integers.
- `value.reverse()` also reverses the caller's own array in place. Only the effect on the stored list is modelled.
- Storage and connectivity failures are not modelled. The only database errors in the model are PostgreSQL's rejection of a negative `OFFSET` or `LIMIT`.
