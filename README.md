# df-elastic: demo data and the scroll-printing loop, in Dafny

This project models the parts of the df-elastic demo client that hold logic of
their own. Everything else in the client is a pass-through call into the
Elasticsearch REST client.

- **Demo-data generation** (`ElasticDataFactory`). `createDemoData(samples)` fills
  a new array. Element `c` is named `Item-%03d`. It is GREEN when `c` is even, RED
  when `c` is an odd prime and BLUE otherwise. It is dated `samples - c` minutes
  before the clock reading taken while it is built. `isPrime` is trial division
  with early returns. It is modelled as a method with a loop and proved equal to
  the predicate `Prime`.
- **The sample records** (`ElasticData`, `ElasticDataDemo`). Each is a class with
  the Java fields, constructors and one setter per field. Each class has a
  `State()` function that gives all its fields as one value. Every setter changes
  its own field in `State()` and nothing else.
- **The result loop of `queryResultsWithFieldFields`**. The outcome of the search
  call is an input: a response (a scroll id and a page of hits) or an
  `IOException`. The loop keeps a set of seen scroll ids, a hit counter and a
  string builder that is emptied before each hit.

A scroll consumer would normally fetch page after page until a page is empty or a
scroll id repeats. This code never fetches a next page, and the model follows the
code. The response variable is never reassigned and no
continuation page is ever requested. So the loop sees the first response on every
pass. An empty page ends the loop through the `while` test on the first pass. A
non-empty page ends it on the second pass, when the seen-id test finds the
response's scroll id. The hits of that page are logged once. The summary always
reports `Scrolls: 1`, and `Hits:` is the size of the first page, whatever the
total number of matches.

The helper modules give the Java platform behaviour that these lines use, as the
JDK documents it:
- `JavaTypes`: `int` wrap-around, `double` as its IEEE 754 bits, and
  `LocalDateTime.minusMinutes`.
- `JavaText`: `Integer.toString`, `%03d` and `String.hashCode`.
- `JavaRandom`: the first `nextInt()` and `nextDouble()` of `new Random(seed)`.

`LocalDateTime.now()` becomes a parameter `now` of the constructors. In
`CreateDemoData` it becomes a function `clock`, where `clock(c)` is the reading
taken while element `c` is built. The logger becomes returned lines.

## Model

| member | source | states |
|---|---|---|
| ElasticDataFactory.IsPrime | src/main/java/com/df/es/ElasticDataFactory.java:21-34 | the loop answers true exactly when `n` is prime: false for every `n <= 1` (0 and negatives included), true for 2, and for larger `n` true iff no `i` in `[2, n)` divides `n` |
| ElasticDataFactory.GetCategory | src/main/java/com/df/es/ElasticDataFactory.java:13-19 | `getCategory`, which runs the primality loop only for odd `c > 1`, returns `Category(c)` |
| ElasticDataFactory.CategoryPartition | src/main/java/com/df/es/ElasticDataFactory.java:13-19 | the category is always one of GREEN, RED, BLUE; GREEN iff `c` is even (2 included); RED iff `c` is a prime other than 2; BLUE iff `c` is odd and not prime |
| ElasticDataFactory.CategoryExamples | src/main/java/com/df/es/ElasticDataFactory.java:13-19 | 0 and 2 are GREEN, 3, 5 and 7 are RED, and 1, 9 and 15 are BLUE |
| ElasticDataFactory.ItemName | src/main/java/com/df/es/ElasticDataFactory.java:8 | `String.format("Item-%03d", c)`: the text "Item-" followed by the index padded with zeros to at least three digits, so at least 8 characters |
| ElasticDataFactory.ItemNameRoundTrip | src/main/java/com/df/es/ElasticDataFactory.java:8 | the index can be read back from `Item-%03d`, for every index including those past 999 |
| ElasticDataFactory.ItemNameInjective | src/main/java/com/df/es/ElasticDataFactory.java:8 | two indices get the same name iff they are equal |
| ElasticDataFactory.DemoRecordFields | src/main/java/com/df/es/ElasticDataFactory.java:7-8 | element `c` is named for `c` and the name parses back to `c`; its category is `Category(c)`; quality is true; its offset `samples - c` lies in `[1, samples]`; it is dated that many minutes before its clock reading |
| ElasticDataFactory.DemoRecordsOrdered | src/main/java/com/df/es/ElasticDataFactory.java:7-8 | for `i < j`, elements `i` and `j` have different names and strictly decreasing offsets; with a clock that does not run backwards, element `j` is strictly newer |
| ElasticDataFactory.CreateDemoData | src/main/java/com/df/es/ElasticDataFactory.java:5-11 | a negative size fails with NegativeArraySize; otherwise a fresh array of length `samples` whose every slot holds a distinct fresh record equal to `DemoRecord(samples, c, clock(c))` |
| ElasticData.CategorisedFields | src/main/java/com/df/es/ElasticData.java:29-33 | the 3-argument constructor keeps the 1-argument constructor's name, quality, intValue and decValue, sets `category = cat`, and sets `created` to the clock reading minus `timeReverseMin` minutes |
| ElasticData.SeededOnlyByHashCode | src/main/java/com/df/es/ElasticData.java:26-27 | two names with equal `hashCode()` give records that differ only in `name`, so equal names give equal `intValue` and `decValue` |
| ElasticData.HashCodeCollision | src/main/java/com/df/es/ElasticData.java:26-27 | "Aa" and "BB" both hash to 2112, so such distinct names exist |
| ElasticData.HashOfTwoChars | src/main/java/com/df/es/ElasticData.java:26 | `hashCode()` of a two-character string of the Basic Multilingual Plane is `31 * c0 + c1` |
| ElasticData.ElasticData.constructor | src/main/java/com/df/es/ElasticData.java:18-20 | the no-argument constructor sets no field: null, false, 0 and 0.0 |
| ElasticData.ElasticData.Named | src/main/java/com/df/es/ElasticData.java:22-28 | stores `name`, sets quality to true, leaves category null, sets created to the clock reading, and sets intValue and decValue from generators seeded by `name.hashCode()` |
| ElasticData.ElasticData.WithCategory | src/main/java/com/df/es/ElasticData.java:29-33 | the object's state is `CategorisedFields(name, cat, timeReverseMin, now)` |
| ElasticData.ElasticData.SetName | src/main/java/com/df/es/ElasticData.java:38-40 | only `name` changes, and `GetName` then returns the value set |
| ElasticData.ElasticData.SetIntValue | src/main/java/com/df/es/ElasticData.java:44-46 | only `intValue` changes, and `GetIntValue` then returns the value set |
| ElasticData.ElasticData.SetDecValue | src/main/java/com/df/es/ElasticData.java:50-52 | only `decValue` changes, and `GetDecValue` then returns the value set |
| ElasticData.ElasticData.SetQuality | src/main/java/com/df/es/ElasticData.java:56-58 | only `quality` changes, and `IsQuality` then returns the value set |
| ElasticData.ElasticData.SetCreated | src/main/java/com/df/es/ElasticData.java:62-64 | only `created` changes, and `GetCreated` then returns the value set |
| ElasticData.ElasticData.SetCategory | src/main/java/com/df/es/ElasticData.java:68-70 | only `category` changes, and `GetCategory` then returns the value set |
| ElasticData.ElasticData.GetName | src/main/java/com/df/es/ElasticData.java:35-37 | returns the object's current `name`: what the constructor or the last `set` call stored |
| ElasticData.ElasticData.GetIntValue | src/main/java/com/df/es/ElasticData.java:41-43 | returns the object's current `intValue`: what the constructor or the last `set` call stored |
| ElasticData.ElasticData.GetDecValue | src/main/java/com/df/es/ElasticData.java:47-49 | returns the object's current `decValue`: what the constructor or the last `set` call stored |
| ElasticData.ElasticData.IsQuality | src/main/java/com/df/es/ElasticData.java:53-55 | returns the object's current `quality`: what the constructor or the last `set` call stored |
| ElasticData.ElasticData.GetCreated | src/main/java/com/df/es/ElasticData.java:59-61 | returns the object's current `created`: what the constructor or the last `set` call stored |
| ElasticData.ElasticData.GetCategory | src/main/java/com/df/es/ElasticData.java:65-67 | returns the object's current `category`: what the constructor or the last `set` call stored |
| ElasticDataDemo.EqualNamesEqualValues | src/main/java/com/df/es/ElasticDataDemo.java:21-27 | records built from one name at any two instants differ at most in `created`; `decValue` lies in [0, 1), has a 53-bit numerator, and that numerator's top 26 bits are the top 26 bits of `intValue` |
| ElasticDataDemo.ElasticDataDemo.constructor | src/main/java/com/df/es/ElasticDataDemo.java:17-19 | the no-argument constructor sets no field |
| ElasticDataDemo.ElasticDataDemo.Named | src/main/java/com/df/es/ElasticDataDemo.java:21-27 | stores `name`, sets quality to true, sets created to the clock reading, and sets intValue and decValue from generators seeded by `name.hashCode()` |
| ElasticDataDemo.ElasticDataDemo.SetName | src/main/java/com/df/es/ElasticDataDemo.java:32-34 | only `name` changes, and `GetName` then returns the value set |
| ElasticDataDemo.ElasticDataDemo.SetIntValue | src/main/java/com/df/es/ElasticDataDemo.java:38-40 | only `intValue` changes, and `GetIntValue` then returns the value set |
| ElasticDataDemo.ElasticDataDemo.SetDecValue | src/main/java/com/df/es/ElasticDataDemo.java:44-46 | only `decValue` changes, and `GetDecValue` then returns the value set |
| ElasticDataDemo.ElasticDataDemo.SetQuality | src/main/java/com/df/es/ElasticDataDemo.java:50-52 | only `quality` changes, and `IsQuality` then returns the value set |
| ElasticDataDemo.ElasticDataDemo.SetCreated | src/main/java/com/df/es/ElasticDataDemo.java:56-58 | only `created` changes, and `GetCreated` then returns the value set |
| ElasticDataDemo.ElasticDataDemo.GetName | src/main/java/com/df/es/ElasticDataDemo.java:29-31 | returns the object's current `name`: what the constructor or the last `set` call stored |
| ElasticDataDemo.ElasticDataDemo.GetIntValue | src/main/java/com/df/es/ElasticDataDemo.java:35-37 | returns the object's current `intValue`: what the constructor or the last `set` call stored |
| ElasticDataDemo.ElasticDataDemo.GetDecValue | src/main/java/com/df/es/ElasticDataDemo.java:41-43 | returns the object's current `decValue`: what the constructor or the last `set` call stored |
| ElasticDataDemo.ElasticDataDemo.IsQuality | src/main/java/com/df/es/ElasticDataDemo.java:47-49 | returns the object's current `quality`: what the constructor or the last `set` call stored |
| ElasticDataDemo.ElasticDataDemo.GetCreated | src/main/java/com/df/es/ElasticDataDemo.java:53-55 | returns the object's current `created`: what the constructor or the last `set` call stored |
| JavaRandom.NextInt | src/main/java/com/df/es/ElasticData.java:26 | `new Random(seed).nextInt()`: read unsigned, its 32 bits are the top 32 bits of the 48-bit state after one step from the scrambled seed |
| JavaText.HashCode | src/main/java/com/df/es/ElasticData.java:26 | `String.hashCode()`: the empty string hashes to 0 and a one-character string of the Basic Multilingual Plane to that character's code |
| JavaText.HashCodeAppend | src/main/java/com/df/es/ElasticData.java:26 | appending a character of the Basic Multilingual Plane takes one step of `h = 31 * h + c`, wrapped to `int` |
| JavaRandom.NextDouble | src/main/java/com/df/es/ElasticData.java:27 | `new Random(seed).nextDouble()` is a double in [0, 1): its bit pattern is below that of 1.0 |
| JavaRandom.UnitDoubleRoundTrip | src/main/java/com/df/es/ElasticData.java:27 | the encoding of `k * 2^-53` as IEEE 754 bits loses nothing: every `k < 2^53` is read back |
| JavaRandom.SameSeedSharesBits | src/main/java/com/df/es/ElasticData.java:26-27 | the two generators are seeded alike, so the first 26 bits of `nextDouble()`'s fraction are the high 26 bits of `nextInt()` |
| JavaText.Format03dRoundTrip | src/main/java/com/df/es/ElasticDataFactory.java:8 | `%03d` of a non-negative number parses back to that number |
| JavaText.IntToStringRoundTrip | src/main/java/com/df/es/ElasticSearchConnector.java:181 | the decimal text of an `int`, sign included, parses back to the same integer |
| ElasticSearchConnector.RenderHit | src/main/java/com/df/es/ElasticSearchConnector.java:180-184 | whatever the reused builder held from the hit before, after `setLength(0)` and the appends it holds exactly "doc: <docId>, Score: <score> =" followed by " key(value)" for each source entry in order |
| ElasticSearchConnector.LogPage | src/main/java/com/df/es/ElasticSearchConnector.java:176-186 | the `for` loop, reusing the pass's one builder for every hit, adds the number of hits to the counter and appends the hits' lines, one per hit in order, after what was logged before |
| ElasticSearchConnector.ConsumeScroll | src/main/java/com/df/es/ElasticSearchConnector.java:167-187 | the loop ends; `hitCount` equals the number of hits; `scrolls` holds exactly the response's scroll id; one line per hit, in hit order (`HitLines`); the body starts once for an empty page and twice otherwise |
| ElasticSearchConnector.HitLinesAt | src/main/java/com/df/es/ElasticSearchConnector.java:176-185 | line `i` is the line of hit `i` |
| ElasticSearchConnector.LineDependsOnlyOnItsHit | src/main/java/com/df/es/ElasticSearchConnector.java:180 | pages that agree on hit `i` log the same line `i`, so no line carries text from another hit |
| ElasticSearchConnector.DocIdRoundTrip | src/main/java/com/df/es/ElasticSearchConnector.java:181 | the document id can be read back from every logged hit line |
| ElasticSearchConnector.Summary | src/main/java/com/df/es/ElasticSearchConnector.java:188 | the closing line "Hits: {}, Scrolls: {}" with its arguments filled in begins with "Hits: "; `SummaryRoundTrip` reads both arguments back |
| ElasticSearchConnector.SummaryRoundTrip | src/main/java/com/df/es/ElasticSearchConnector.java:188 | the hit count and, after ", Scrolls: ", the scroll count, signs included, can both be read back from the closing line |
| ElasticSearchConnector.QueryResultsWithFieldFields | src/main/java/com/df/es/ElasticSearchConnector.java:156-192 | if the search throws `IOException`, only the error line is logged: no hit line and no summary; otherwise the hit lines are logged at INFO, followed by "Hits: <number of hits>, Scrolls: 1" |

## Left out

- The connection and administration wrappers of `ElasticSearchConnector` are not modelled: the constructor, `isClusterHealthy`, `isIndexRegistered`, `createIndex`, `indexDocument` (with its JSON building), `clearIndex` and `close`. Each is one call into the REST client with no logic of its own.
- `queryResultsWithAgeFilter` is not modelled. It has no seen-id guard and never replaces its response, so it loops forever on a non-empty first page.
- The search request itself is not modelled: the index name, filter, sort field, page size of 100 and scroll timeout only shape a request to the cluster. Its outcome is the input `search`.
- Continuation pages are not modelled, because the code never requests one.
- The entry points `ElasticSearchMain`, `ElasticDemoMain` and `ESStoreData` only orchestrate I/O and are not part of this model.
- Logging is modelled as returned lines. slf4j formatting is rendered only for the summary's two integer arguments.
- Hit scores and source-map values are carried as the text that `Float.toString` and `String.valueOf` give them. Float formatting is not modelled.
- `decValue` is carried as a `double` bit pattern. No floating-point arithmetic is modelled.
- `LocalDateTime` is a nanosecond count. Its range limits, which make `minusMinutes` throw, are not modelled.
- ElasticData.ElasticData.Named: a `null` name makes `name.hashCode()` throw `NullPointerException`. That case is excluded by the parameter type and not modelled.
- ElasticDataDemo.ElasticDataDemo.Named: the same `null` name case is not modelled.
- ElasticDataFactory.CreateDemoData: `OutOfMemoryError` for very large arrays is not modelled. The `%03d` names assume a default locale with ASCII digits.
- ElasticSearchConnector.ConsumeScroll: a `null` scroll id is not modelled, and neither are runtime exceptions thrown while reading a hit's source.
