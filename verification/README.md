# VAT settlement merger (check.py) in Dafny

`check.py` is a small Streamlit tool for an organic-farm seller. The seller
uploads the settlement CSV exports of several online marketplaces. The tool
reduces each file to six VAT buckets: {과세 (taxable), 면세 (exempt)} ×
{신용카드 (card), 현금영수증 (cash receipt), 기타 (other)}. It then adds the
buckets of all files into one summary. Finally it shows the summary as a
two-row report with a 합계 (total) column.

This project models the computing core of that tool:

- `amount.dfy` (module `Amount`) models `to_num`.
  - A cell is `Missing` (NaN/None), `Text` or `Num`.
  - For text, the model removes every `,`, `원` and ASCII space, strips
    surrounding whitespace (Python's `str.isspace` set), then parses the
    rest, or yields 0.
  - A numeric cell goes through `str()` and back. The proofs show that this
    round trip returns the number.
- `buckets.dfy` (module `Tax`) holds the six-bucket value, its bucket-wise
  sum, and the one-category and one-bucket values.
- `table.dfy` (module `Frame`) holds the few pandas operations the adapters
  use:
  - a table of rows keyed by column name;
  - `df[c].apply(to_num)` on the listed columns the table has;
  - boolean-mask filtering;
  - column sums;
  - the column that a `KeyError` names.
- `marketplace.dfy` (module `Marketplace`) models `analyze_file`:
  - the SmartStore adapter;
  - the Coupang adapter with refund netting;
  - the dispatch on the file name;
  - the three kinds of message the function returns instead of a result
    (read failure, `분석 오류: …`, `미지원 양식`).
- `settlement.dfy` (module `Settlement`) models the settlement run. A
  `FinalSummary` class holds the nested dictionary `final_summary`:
  - Its methods credit one result key (`k.split('_')`, `typ_map`, and the
    "과세 else 면세" choice), one result dictionary (the inner loop) and one
    file (the outer loop's body).
  - `Settle` runs the outer loop over the uploaded files and builds the
    report with 합계.
  - These methods are proved equal to a pure left fold `Total` over the
    files.
  - Properties of `Total` are proved as lemmas:
    - it is additive over batches;
    - files that produced a message add nothing;
    - upload order does not matter.

The CSV reader with its encoding retries is not modelled. An upload carries
what the reader produced: `Some(table)`, or `None` when every encoding
failed.

Behaviour worth knowing, as check.py has it:

- A SmartStore file must have all six of its columns, `기타` included.
  `df['기타']` raises `KeyError` when the column is absent, so the file
  yields `분석 오류: '기타'` and adds nothing.
- Amount cleaning removes only `,`, `원` and spaces, so `"1,234 KRW"` is 0.
- A readable file whose name has neither `스마트스토어` nor `쿠팡` in it yields
  the plain message `미지원 양식`. An unreadable file yields the read-failure
  message whatever its name, because the file is read before the name is
  looked at.
- Adapters are chosen by file name only. Column names are matched exactly,
  with no case or space normalisation.

## Model

| member | source | states |
|---|---|---|
| Amount.ToNum | check.py:20-24 | A missing (NaN/None) cell is 0; a numeric cell, printed with `str()`, cleaned and parsed, gives back its own value; every text gives some number (never an error) |
| Amount.RemoveNoiseSpec | check.py:22 | After the three `replace` calls no `,`, `원` or space is left |
| Amount.RemoveNoiseAppend | check.py:22 | Removing the noise characters works piece by piece over a concatenation |
| Amount.RemoveNoiseKeeps | check.py:22 | Text without noise characters is left unchanged by the `replace` calls |
| Amount.RemoveNoiseAddsNoDigit | check.py:22 | The `replace` calls never introduce a digit |
| Amount.TrimStartSpec | check.py:22 | `strip()` at the front removes exactly a whitespace prefix and stops at a non-whitespace character |
| Amount.TrimEndSpec | check.py:22 | `strip()` at the back removes exactly a whitespace suffix and stops at a non-whitespace character |
| Amount.TrimStartSkips | check.py:22 | Whitespace in front of a text that starts with a non-space is removed entirely and nothing more |
| Amount.TrimEndSkips | check.py:22 | Whitespace after a text that ends with a non-space is removed entirely and nothing more |
| Amount.TrimPadding | check.py:22 | Stripping whitespace padded around a text with non-space ends gives the text back |
| Amount.Clean | check.py:22 | The `replace`/`strip` chain; what its result is, is stated by `CleanSpec`, `CleanPadded` and `CleanShowInt` below |
| Amount.CleanSpec | check.py:22 | The cleaned text is no longer than the input, holds no noise character and has no whitespace at either end |
| Amount.PaddingCleansToSpace | check.py:22 | Padding made of noise and whitespace becomes pure whitespace once the noise is removed |
| Amount.CleanPadded | check.py:22 | A printed number surrounded by any noise and whitespace cleans to exactly the printed number |
| Amount.ShowIntShape | check.py:22 | `str()` of an integer is non-empty, holds no noise character and has no whitespace at either end |
| Amount.DigitsOfShowNat | check.py:22-23 | Reading back the digits of a printed natural number gives the number |
| Amount.ParseInteger | check.py:23 | The part of `float(clean)` the model keeps: an optionally signed non-empty run of ASCII digits, anything else fails; `ParseShowInt` proves it inverts `str()` |
| Amount.ParseOrZero | check.py:23-24 | `try: float(clean)` with `except: 0`; `ParseShowInt` and `NoDigitsIsZero` state its two outcomes |
| Amount.CleanShowInt | check.py:22 | Cleaning a printed integer leaves it unchanged |
| Amount.ParseShowInt | check.py:22-23 | Parsing a printed integer gives the integer (sign included) |
| Amount.ShowIntRoundTrip | check.py:22-23 | `float(str(n).replace(...).strip())` is `n` for every integer `n` |
| Amount.NoiseInsensitive | check.py:22-23 | Inserting a `,`, `원` or space anywhere in a text does not change its amount |
| Amount.PaddedNumber | check.py:22-23 | A number with any noise and whitespace around it converts to that number |
| Amount.NoDigitsIsZero | check.py:22-24 | A text without digits (the empty text included) converts to 0 in the model (the `except` branch for every such text except `inf`/`nan` spellings, which are admitted under Left out) |
| Amount.GroupedExample | check.py:22-23 | `"1,234,567원"` converts to 1234567 |
| Amount.PaddedExample | check.py:21-24 | `" 500 "` converts to 500 and `""` converts to 0 |
| Tax.Buckets.Plus | check.py:82 | Adding two results adds each bucket to its matching bucket and touches no other |
| Tax.Side | check.py:37-50 | One category's card, cash and other amounts, with 0 in the other category |
| Tax.Unit | check.py:82 | One amount in exactly one bucket, 0 everywhere else |
| Frame.ConvertRows | check.py:35-36 | Converting columns keeps the number of rows |
| Frame.ConvertRowSpec | check.py:35-36 | A converted column reads as the `to_num` of the original cell; every other column is unchanged |
| Frame.ConvertRowsAppend | check.py:35-36 | Converting a concatenation converts each part |
| Frame.ConvertRowsSingle | check.py:35-36 | Converting one row converts just that row |
| Frame.FirstMissing | check.py:37-39 | The column whose lookup raises first; stated by `FirstMissingSpec` |
| Frame.FirstMissingSpec | check.py:37-38 | The first failing column lookup: none iff every required column is present, else the earliest absent one |
| Frame.Where | check.py:37 | `df[mask]` (also at check.py:48); stated by `WhereSpec` and `WhereAppend` |
| Frame.WhereSpec | check.py:37 | Filtering keeps every occurrence of each row that satisfies the condition, drops every row that does not, and never adds a row |
| Frame.WhereAppend | check.py:37 | Filtering a concatenation filters each part |
| Frame.Sum | check.py:38-39 | `.sum()` of a column (also at check.py:49-50), 0 for no rows; stated by `SumAppend`, `FilteredSumAppend` and `FilteredSumSingle` |
| Frame.SumAppend | check.py:38 | A column sum over a concatenation is the sum of the parts' sums |
| Frame.FilteredSumAppend | check.py:37-38 | A filtered column sum over a concatenation is the sum of the parts' filtered sums |
| Frame.FilteredSumSingle | check.py:37-38 | A filtered sum over one row is its value if the row passes, else 0 |
| Marketplace.MessagesDistinct | check.py:53-55 | A missing-column message starts with `분석 오류: `; the read-failure and unsupported messages do not, and differ from each other |
| Marketplace.Contains | check.py:34 | Python's `token in fname` (also at check.py:42); stated by `ContainsSpec` |
| Marketplace.ContainsSpec | check.py:34 | `token in name` holds exactly when `token` occurs at some position of `name` |
| Marketplace.SmartStore | check.py:34-39 | A result iff all six columns exist, and then it is the filtered sums of the converted rows; otherwise `분석 오류: '<col>'` for an absent column |
| Marketplace.SmartStoreOf | check.py:35-39 | The SmartStore dictionary of a file with all six columns; stated row by row by `SmartStoreAppendRow`, `SmartStoreAdditive`, `SmartStoreDoubleCount` and `SmartStoreIgnoresUnsoldRow` |
| Marketplace.SmartStoreSideAdditive | check.py:37-39 | Each of one side's four filtered column sums splits over a concatenation |
| Marketplace.SmartStoreBucketsAdditive | check.py:37-39 | The SmartStore reduction of converted rows is additive over a concatenation |
| Marketplace.SmartStoreAdditive | check.py:35-39 | The SmartStore result of a file is the sum of the results of any split of its rows |
| Marketplace.SmartStoreSideSingle | check.py:37-39 | One converted row adds its four column values to a side exactly when it passes that side's filter |
| Marketplace.SmartStoreBucketsSingle | check.py:37-39 | One converted row reduces to its payments on the taxable side if 과세매출 > 0 and on the exempt side if 면세매출 > 0 |
| Marketplace.SmartStoreSingleRow | check.py:35-39 | One raw row reduces to its row-by-row share computed with `to_num` |
| Marketplace.SmartStoreAppendRow | check.py:35-39 | Appending a row adds exactly its share |
| Marketplace.SmartStoreDoubleCount | check.py:37-39 | A row with both 과세매출 > 0 and 면세매출 > 0 adds its full card, cash (both cash columns) and other amounts to both categories |
| Marketplace.UnsoldShareIsZero | check.py:37 | A row with neither sales column positive has no share in any bucket |
| Marketplace.SmartStoreIgnoresUnsoldRow | check.py:37 | A row with neither sales column positive changes nothing, wherever it stands |
| Marketplace.Coupang | check.py:42-50 | A result iff the three sale columns and 과세유형 exist, and then it is the net sums of the converted rows; otherwise `분석 오류: '<col>'` for an absent column |
| Marketplace.CoupangOf | check.py:43-50 | The Coupang dictionary of a file with the required columns; stated row by row by `CoupangAppendRow`, `CoupangAdditive` and `CoupangIgnoresUntaggedRow` |
| Marketplace.CoupangBucketsAdditive | check.py:45-50 | The Coupang reduction of converted rows is additive over a concatenation |
| Marketplace.CoupangAdditive | check.py:43-50 | The Coupang result of a file is the sum of the results of any split of its rows |
| Marketplace.CoupangSideSingle | check.py:45-50 | One converted row adds its three net amounts to a side exactly when its tag matches |
| Marketplace.CoupangBucketsSingle | check.py:45-50 | One converted row reduces to sale minus refund per channel, on the taxable side for `TAX` and on the exempt side for `FREE` |
| Marketplace.RefundConverted | check.py:43-47 | After conversion, `df.get(refund, 0)` reads as the refund's `to_num` when the column exists and 0 otherwise |
| Marketplace.CoupangSingleRow | check.py:43-50 | One raw row reduces to its row-by-row share computed with `to_num` |
| Marketplace.CoupangAppendRow | check.py:43-50 | Appending a row adds exactly its share |
| Marketplace.UntaggedShareIsZero | check.py:48 | A row not tagged exactly `TAX` or `FREE` has no share in any bucket |
| Marketplace.CoupangIgnoresUntaggedRow | check.py:48 | A row tagged anything but exactly `TAX` or `FREE` (or untagged) changes nothing, wherever it stands |
| Marketplace.CoupangRefundExample | check.py:45 | A `TAX` row with card sale 10000 and card refund 3000 adds 7000 to the taxable card bucket |
| Marketplace.CoupangMissingRefund | check.py:45 | Without a refund column a `TAX` row adds its whole card sale |
| Marketplace.Analyze | check.py:27-55 | Read failure iff no table; `미지원 양식` iff readable and the name has neither token; a SmartStore name wins over a Coupang name; every message is one of the three kinds |
| Settlement.IndexOfSpec | check.py:79 | The position found is the first underscore; none iff there is no underscore |
| Settlement.IndexOfAfter | check.py:79 | In `a + "_" + b` with no underscore in `a`, the first underscore follows `a` |
| Settlement.Route | check.py:79-81 | Where one key is credited, or None where the loop raises; stated by `RouteParts`, `RouteKey`, `RouteOtherCategoryIsExempt` and `RouteRejects` |
| Settlement.RouteParts | check.py:79-81 | A key `cat_typ` with underscore-free parts splits into `cat` and `typ` and is routed by them |
| Settlement.RouteKey | check.py:79-82 | Every key an adapter writes (`과세_신용` … `면세_기타`) is credited to its own category and payment type |
| Settlement.RouteOtherCategoryIsExempt | check.py:81 | Any first part other than exactly `과세` is credited to 면세 |
| Settlement.RouteRejects | check.py:79-80 | A key with no underscore or with two or more (where `cat, typ = k.split('_')` raises), or without a known payment name after the underscore, names no bucket |
| Settlement.Credited | check.py:78-82 | The inner loop's effect as a fold over the items; stated by `CreditedStep`, `CreditedPrefix` and `ItemsCredited`, and tied to the loop by `FinalSummary.AddItems` |
| Settlement.CreditedStep | check.py:78-82 | Crediting one more item adds its amount to its bucket only |
| Settlement.CreditedKey | check.py:78-82 | Crediting one more adapter key adds its amount to that key's own bucket |
| Settlement.CreditedPrefix | check.py:78-82 | If crediting all items succeeds, every prefix succeeds and every key names a bucket |
| Settlement.ItemRoutes | check.py:78-80 | Every item of a result dictionary names a bucket, so the loop never raises on it |
| Settlement.ItemsCredited | check.py:78-82 | Crediting a result dictionary's six items adds exactly that result |
| Settlement.Total | check.py:75-82 | The outer loop's effect as a left fold over the files; stated by `TotalStep`, `TotalAppend`, `TotalSkipsMessages` and `TotalPermutation`, and tied to the loop by `Settle` |
| Settlement.TotalStep | check.py:75-82 | Settling one more file adds its contribution |
| Settlement.TotalSingle | check.py:75-82 | Settling a single file gives exactly that file's contribution |
| Settlement.TotalAppend | check.py:75-82 | Settling two batches in a row adds their totals |
| Settlement.TotalSkipsMessages | check.py:77 | A file that produced a message changes nothing, wherever it was uploaded |
| Settlement.RemoveMatching | check.py:75 | Taking the same file out of two reorderings of a batch leaves two reorderings |
| Settlement.TotalMoveToEnd | check.py:75-82 | A file contributes the same wherever it stands in the batch |
| Settlement.TotalPermutation | check.py:75-82 | Any reordering of the uploaded files gives the same totals |
| Settlement.FinalSummary.constructor | check.py:73 | Every bucket of the new summary is 0 |
| Settlement.FinalSummary.Credit | check.py:79-82 | `final_summary[cat][typ_map[typ]] += v` adds `v` to the routed bucket and leaves the other five unchanged |
| Settlement.FinalSummary.AddItems | check.py:78-82 | The inner loop, crediting the items in order, adds what crediting them all adds up to |
| Settlement.FinalSummary.AddSummary | check.py:78-82 | Running the inner loop over a result dictionary adds exactly that result to the summary |
| Settlement.FinalSummary.AddFile | check.py:76-82 | One outer-loop pass adds the file's result, or nothing when the result is a message |
| Settlement.Row | check.py:85-86 | A report row holds the category's three payment buckets, and its 합계 is their sum |
| Settlement.ReportOf | check.py:85-86 | The two-row report (과세, 면세) of a summary; its rows are stated by `Row` |
| Settlement.ReportTotalAdditive | check.py:86 | A category's 합계 for two batches together is the sum of the two batches' 합계 |
| Settlement.Settle | check.py:73-86 | The report of the loop over the files equals the report of the fold `Total`, so it inherits the fold's additivity, message skipping and order independence |

## Left out

- The Streamlit page is not modelled: the sidebar period input, the file
  status table, the button and the result table's display (check.py:5-7,
  57-72, 87-88).
- `smart_read_csv` and its four-encoding retry loop (check.py:10-18) are
  not modelled. An upload carries what it produced.
- The Excel export and its error message (check.py:90-98) are not modelled.
- The display formatting `f"{int(x):,}원"` is not modelled.
- Amount.ToNum: amounts are integers, so the model is weaker than `float()`
  in three ways:
  - Text that `float()` accepts but that is not an optionally signed run of
    ASCII digits converts to 0 in the model. This covers decimals such as
    `"12.5"`, exponents, `inf`/`nan`, digit-group underscores and non-ASCII
    digits.
  - A numeric cell holds an integer; fractional amounts are not represented.
  - `to_num` returns a float64, and the column sums (check.py:38-39, 49-50)
    and `+= v` (check.py:82) add in float64. Integers above 2^53 are
    rounded there (`"12345678901234567"` becomes 12345678901234568.0), while
    the model's integers and totals stay exact.
- Amount.ToNum: pandas itself decides whether a cell is read as text, a
  number or NaN. The model takes that decision as given in the `Cell` value.
- Marketplace.Analyze: the only exception modelled inside the `try` is the
  `KeyError` of an absent column. Other pandas errors (for example a
  comparison on an unexpected dtype) are not modelled.
- The other marketplaces mentioned at check.py:52 have no code in the
  source, and none in the model.
- Settlement.FinalSummary.Credit: requires a key that routes to a bucket.
  The source would raise an uncaught `ValueError` or `KeyError` for any
  other key. Settlement.ItemRoutes shows that the adapters never produce
  such a key.
