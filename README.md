# bigdata_hana record generator, in Dafny

This project models the synthetic record generator `Util` of the bigdata_hana
demo application. A `Util` instance hands out `BigData` rows. Each row gets
the next value of an `int` id counter that the instance owns and never resets.
The other columns hold a random user name (fewer than 50 characters), a
random date, a random text (fewer than 280 characters) and a random
non-negative `int`.

Modules:

- `JavaLang` (`java_lang.dfy`): Java's 32-bit `int`, with two's-complement
  wrap-around written out as `Wrap`. It also models the draw
  `(int) (Math.random() * k)` as `RandomScaled`, a method that returns some
  integer in the range the expression can produce. The range is `[0, k)` for
  positive `k`, `0` for `k == 0` and `(k, 0]` for negative `k`.
- `Persistence` (`persistence.dfy`): the `BigData` row as a datatype. The
  date column is the `(year, month, day)` triple passed to the
  `java.sql.Date` constructor.
- `Util` (`util.dfy`): the generator as a class. It has the real `id` field
  and a ghost count `issued` of the records generated so far. Its invariant
  `Valid()` says the counter always equals `issued` as a Java `int`, which is
  what "never reset" means here. The module also holds predicates describing
  what the generator can produce, and lemmas about batches and ids.
- `DataAccess` (`data_access.dfy`): the one fact the data-access object adds.
  It builds a fresh generator for every insert or update, so each batch's ids
  are exactly `1..amount`.

Two facts of `Util.java` that the model keeps:

- The alphabet literal has 64 characters: 26 upper-case letters, a space, 26 lower-case letters, a space and `1234567890`.
- Ids are positive and distinct only while an instance has generated at most
  `Integer.MAX_VALUE` records. The counter is a Java `int`, so record number
  2^31 gets `Integer.MIN_VALUE`, and ids repeat after 2^32 records. The model
  keeps this wrap-around. The ordering and distinctness lemmas carry the
  bound as a hypothesis.

## Model

| member | source | states |
|---|---|---|
| `JavaLang.RandomScaled` | src/edu/hm/cs/bigdata/hana/util/Util.java:36 | `(int) (Math.random() * k)` lies in `[0, k)` when `k > 0`, is `0` when `k == 0` and lies in `(k, 0]` when `k < 0` |
| `JavaLang.WrapAddCongruent` | src/edu/hm/cs/bigdata/hana/util/Util.java:75 | Java `int` addition is modular, so `n` successive `id++` steps equal one addition of `n` |
| `JavaLang.WrapPeriodic` | src/edu/hm/cs/bigdata/hana/util/Util.java:17 | the `int` counter's values repeat with period 2^32 |
| `Util.AlphabetIsLettersDigitsAndSpace` | src/edu/hm/cs/bigdata/hana/util/Util.java:34 | the alphabet has 64 characters, and a character is in it exactly when it is an ASCII letter, a digit or a space |
| `Util.RandomRecordColumns` | src/edu/hm/cs/bigdata/hana/util/Util.java:70-80 | a generated row has a user name under 50 and a text under 280 characters, both only letters, digits and spaces; its date arguments are in range and its number is in `[0, 2^31 - 1)` |
| `Util.BatchIdsAscending` | src/edu/hm/cs/bigdata/hana/util/Util.java:73-76 | below `Integer.MAX_VALUE` the `k`-th id of a batch is `issuedBefore + k + 1`, so ids are positive, strictly increasing and pairwise distinct |
| `Util.SuccessiveBatches` | src/edu/hm/cs/bigdata/hana/util/Util.java:75 | two batches from one instance continue a single numbering; below `Integer.MAX_VALUE` every id of the later batch exceeds every id of the earlier one, so the ranges are disjoint |
| `Util.IdPastMaxIntIsNegative` | src/edu/hm/cs/bigdata/hana/util/Util.java:75 | the record numbered 2^31 in an instance's lifetime gets id `Integer.MIN_VALUE` |
| `Util.IdsRepeatAfterFullCycle` | src/edu/hm/cs/bigdata/hana/util/Util.java:75 | records numbered 2^32 apart get the same id |
| `Util.Util.constructor` | src/edu/hm/cs/bigdata/hana/util/Util.java:17 | a new generator's counter is 0 and it has generated nothing |
| `Util.Util.CreateRandomInt` | src/edu/hm/cs/bigdata/hana/util/Util.java:23-25 | the result is non-negative and below `Integer.MAX_VALUE` |
| `Util.Util.CreateRandomText` | src/edu/hm/cs/bigdata/hana/util/Util.java:32-43 | the drawn target length is a value `(int) (Math.random() * maxLengthWord)` can take, and the text is exactly that long (empty when the target is not positive), so it is shorter than `maxLengthWord` when that is positive and empty otherwise; every character is from the alphabet |
| `Util.Util.CreateRandomDate` | src/edu/hm/cs/bigdata/hana/util/Util.java:50-57 | year in `[1000, 4999]`, month in `[1, 12]`, day in `[1, 28]` |
| `Util.Util.CreateData` | src/edu/hm/cs/bigdata/hana/util/Util.java:67-85 | exactly `amountDataset` records, or none when it is not positive (counter unchanged); record `k` gets id `old(id) + k + 1` in `int` arithmetic; the counter ends `amountDataset` further on and still equals the lifetime record count; every record satisfies the generated-record bounds |
| `DataAccess.CreateFreshBatch` | src/edu/hm/cs/bigdata/hana/persistence/BigDataDAO.java:38-40 | the batch one insert or update writes has ids exactly `1..amountDataset`, in order, and generated-record columns |

## Left out

- `BigDataDAO`: the SQL statements, the connection handling and the
  aggregate queries. Their behaviour belongs to the database. Only the
  fresh-generator-per-call fact is modelled, as `DataAccess.CreateFreshBatch`.
- `BigDataServlet`: HTTP handling, HTML rendering, the JNDI lookup and the
  choice between insert and update. That choice is two data-access calls with
  no logic of its own.
- `Math.random()`: the floating-point arithmetic and the uniform distribution
  of the draws. Each draw is an arbitrary integer in the range the cast can
  produce.
- The calendar meaning of `java.sql.Date(int, int, int)`, which counts years
  from 1900 and months from 0. The model bounds the arguments passed, not the
  resulting date.
- `ArrayList` and `StringBuilder` identity: the list `createData` returns and
  the builder `createRandomText` grows are fresh, unshared objects. They are
  modelled as sequence values.
