# dataframes1 in Dafny

A model of the `dataframes1` Rust crate: a generic in-memory data frame holding
user-defined row records, with verbs that each build a new store (`transform`,
`select`, `mutate`, `filter`, `lookup`, `reverse_lookup`, `gather`), a runtime-typed
column store (`cbind`, `rbind`, `select` and their in-place `_mut` forms), and two
prototypes that record column expressions in reverse-Polish order.

How the crate is modelled:

- A typed store is a class with one field, `rows: seq<R>`. `push` and `extend`
  change it in place. Every verb borrows a store and builds a new one, so a verb is a
  function from the borrowed store's rows to the new store's rows. A function cannot
  change its argument, so "the source store is unchanged" holds by construction.
- User closures are Dafny function values: predicates `R -> bool`, transforms
  `R -> S`, pair predicates and combiners `(R, O) -> …`, constructors `() -> N`. A
  closure that edits a row through `&mut` is modelled as the function that returns the
  edited row.
- Rayon's `par_iter().map/filter(..).collect()` keeps input order, and `find_first`
  returns the earliest match in the original order. Both are modelled by their
  sequential meaning.
- The crate has two generations of the typed store, and both are modelled.
  - `Legacy` is the all-in-one `src/lib.rs`.
  - The modular one is `Frame` (`src/dataframe/mod.rs` and `traits.rs`), plus
    `Filter`, `Mutate`, `Select` and `Gather` (`src/filter`, `src/mutate`,
    `src/select`, `src/gather`).
  - Where the two generations have the same code, `Legacy` reuses the modular
    definitions.
  - `lookup` differs. In `src/lib.rs` the default row is mandatory. In the modular
    version it is an `Option`, and without it unmatched rows are dropped.
- `Dynamic` (`src/dynamic/mod.rs`) is a class with `columns: map<string, Column>` and
  `nrow: nat`.
  - Each `*_ck` check is a method that reads and changes nothing. Its loop is proved
    against a declarative condition.
  - The copying forms build a fresh store. The `_mut` forms change this store, and
    change nothing when the check fails.
  - `Valid()` (every column has `nrow` entries) is preserved by every operation.
- `DfToken` and `DfTokenCopy` (`src/dynamic/df_token.rs`, `df_token_copy.rs`) are
  classes whose item lists are `seq<Item>` fields.

The gather! macro appears twice in the crate, in `src/lib.rs:260-274` and in
`src/gather/mod.rs:7-21`, with the same text. `Gather` models it once.
`Column::len` and `Column::variant_str` (`src/dynamic/mod.rs:22-45`) are the functions
`Dynamic.Len` and `Dynamic.VariantStr`. What they state is in the rows of
`Dynamic.Append` and `Dynamic.VariantStrNamesType`.

Lookup length law: without a constructor, `lookup`'s output has one row per matched
source row. So it has `|self|` rows whenever every row matches. An equal length does
not mean that a default was supplied.

## Model

| member | source | states |
|---|---|---|
| `Filter.Filter` | src/filter/mod.rs:11-20 | the output's length is the number of rows satisfying `p`; every output row is an input row satisfying `p`; every input row satisfying `p` is in the output |
| `Filter.FilterAppend` | src/filter/mod.rs:15-18 | filtering a concatenation is the concatenation of the filtered parts, in order (relative order kept) |
| `Filter.FilterSingle` | src/filter/mod.rs:15-18 | a single row is kept exactly when it satisfies `p` |
| `Filter.FilterSubsequence` | src/filter/mod.rs:15-18 | the output is a subsequence of the input |
| `Filter.FilterAll` | src/filter/mod.rs:15-18 | an always-true predicate returns the same rows |
| `Filter.FilterNone` | src/filter/mod.rs:15-18 | an always-false predicate returns an empty store |
| `Frame.DataFrame.New` | src/dataframe/mod.rs:17-24 | a new store has no rows |
| `Frame.DataFrame.With` | src/dataframe/mod.rs:28-31 | the store is exactly the one the builder produces |
| `Frame.DataFrame.Push` | src/dataframe/mod.rs:34-37 | `r` becomes the new last row; the earlier rows are unchanged |
| `Frame.DataFrame.Extend` | src/dataframe/traits.rs:10-16 | the items are appended in iteration order; the old rows remain as a prefix; the length grows by the number of items |
| `Frame.Transform` | src/dataframe/mod.rs:101-107 | the output has the input's length and row `i` is `f(rows[i])` |
| `Frame.TransformAppend` | src/dataframe/mod.rs:101-107 | transforming a concatenation transforms each part, in order |
| `Frame.FindFirst` | src/dataframe/mod.rs:77 | a found position is a match and no earlier row matches; no position means no row matches |
| `Frame.FirstMatchUnique` | src/dataframe/mod.rs:77 | the first match is unique, so ties between several matching rows are resolved by original position |
| `Frame.Lookup` | src/dataframe/mod.rs:56-97 | no more rows than `self`. With a constructor: one row per row of `self`, row `i` combining `self[i]` with its lowest-index match, or `ctor()` if none. Without one: as many rows as matched source rows |
| `Frame.LookupAppend` | src/dataframe/mod.rs:73-95 | looking up a concatenation concatenates the lookups of the parts: each row's output keeps its row's relative position |
| `Frame.LookupDropsUnmatched` | src/dataframe/mod.rs:84-93 | without a constructor, the lookup equals the lookup of only the matched source rows, in order: unmatched rows are dropped |
| `Frame.LookupInnerExample` | src/dataframe/mod.rs:73-95 | ids [1, 2] against [2, 3] without a constructor give only the joined row for id 2 |
| `Frame.LookupDefaultExample` | src/dataframe/mod.rs:84-87 | the same inputs with a constructor give the default row in position 0 and the joined row in position 1 |
| `Mutate.Mutate` | src/mutate/mod.rs:11-14 | the output has the input's length and row `i` is `rows[i]` after the mutation |
| `Mutate.MutateNoop` | src/mutate/mod.rs:13 | a mutation that changes nothing yields the input rows |
| `Select.Select` | src/select/mod.rs:35-38 | `select` is exactly `transform`: same length, row `i` is `f(rows[i])` |
| `Gather.Gather` | src/gather/mod.rs:38-72 | the nested loop yields exactly `Gathered`: the expansions of the rows, in row order |
| `Gather.GatheredLength` | src/gather/mod.rs:55-66 | the output length is the sum over rows of the number of collected pairs |
| `Gather.GatheredAppend` | src/gather/mod.rs:55-66 | gathering a concatenation gathers each part, in order; pair counts add up |
| `Gather.GatheredAt` | src/gather/mod.rs:58-64 | output row `TotalPairs(rows[..i]) + j` is a copy of input row `i` updated with its `j`-th collected pair |
| `Gather.GatheredSkipsEmpty` | src/gather/mod.rs:58 | rows whose `collect` yields nothing contribute no output rows |
| `Gather.MaskedAt` | src/gather/mod.rs:15 | clearing sets exactly the listed columns to `None` and keeps every other field |
| `Gather.MacroUpdateFields` | src/gather/mod.rs:13-18 | the macro's update sets the key to `Some(name)` and the value field to the value, clears the other gathered columns, and leaves every other field unchanged |
| `Gather.MacroTotalPairs` | src/gather/mod.rs:12 | the macro's collect yields one pair per listed column for every row |
| `Gather.GatherMacroAt` | src/gather/mod.rs:9-19 | with the macro, the output has (rows × columns) rows, and row `i * n + j` (`n` listed columns) is row `i` updated with column `j`'s name and value |
| `Gather.GatherExample` | src/gather/mod.rs:9-19 | the row {id 1, bar 5, baz 6} gathered over bar, baz gives key bar / val 5 then key baz / val 6, with bar and baz cleared |
| `Legacy.DataFrame.New` | src/lib.rs:31-37 | a new store has no rows |
| `Legacy.DataFrame.With` | src/lib.rs:40-43 | the store is exactly the one the builder produces |
| `Legacy.DataFrame.Push` | src/lib.rs:221-224 | `r` becomes the new last row; the earlier rows are unchanged |
| `Legacy.DataFrame.Extend` | src/lib.rs:227-236 | the items are appended in iteration order after the existing rows |
| `Legacy.Lookup` | src/lib.rs:59-84 | one row per row of `self`; row `i` combines `self[i]` with its lowest-index match in `other`, or is `default()` if none matches |
| `Legacy.ReverseLookup` | src/lib.rs:88-104 | one row per row of `other`; row `j` combines the lowest-index row of `self` matching `other[j]` with it, or is `default()` |
| `Legacy.Transform` | src/lib.rs:108-117 | same length and row `i` is `op(rows[i])` |
| `Legacy.TransformMut` | src/lib.rs:121-130 | the same rows as `transform` |
| `Legacy.Select` | src/lib.rs:149-155 | the same rows as `transform` |
| `Legacy.Mutate` | src/lib.rs:158-163 | the same rows as the modular `mutate`: row `i` is `rows[i]` after the mutation |
| `Legacy.Filter` | src/lib.rs:212-218 | the same rows as the modular `filter`: exactly the rows satisfying `p`, counted and in order |
| `Legacy.Gather` | src/lib.rs:166-200 | the same rows as the modular `gather`; length is the sum of the pair counts |
| `Dynamic.Append` | src/dynamic/mod.rs:212-217 | extending a column keeps its type and its length is the sum of both lengths |
| `Dynamic.VariantStrNamesType` | src/dynamic/mod.rs:34-45 | two columns have the same type name exactly when they have the same type |
| `Dynamic.DataFrame.New` | src/dynamic/mod.rs:301-311 | `new`/`default` has no columns and `nrow == 0` |
| `Dynamic.DataFrame.CbindCk` | src/dynamic/mod.rs:97-114 | fails on differing row counts, else fails exactly when a column name is shared, else passes |
| `Dynamic.DataFrame.Cbind` | src/dynamic/mod.rs:117-135 | on success, a fresh store with the union of both column maps and this store's `nrow`; fails as the check does; keeps `Valid` |
| `Dynamic.DataFrame.CbindMut` | src/dynamic/mod.rs:138-151 | on failure nothing changes; on success this store gains the other's columns and keeps `nrow`; keeps `Valid` |
| `Dynamic.DataFrame.RbindCkBase` | src/dynamic/mod.rs:153-186 | passes exactly when every column of `a` is in `b` with the same type |
| `Dynamic.DataFrame.RbindCk` | src/dynamic/mod.rs:188-197 | passes exactly when both stores have the same column names with the same types; the column-count assertion always holds |
| `Dynamic.DataFrame.Rbind` | src/dynamic/mod.rs:200-227 | on success, a fresh store whose every column is this store's followed by the other's, with `nrow` the sum; keeps `Valid` |
| `Dynamic.DataFrame.RbindMut` | src/dynamic/mod.rs:230-251 | on failure nothing changes; on success every column is extended by the other's and `nrow` is the sum; keeps `Valid` |
| `Dynamic.DataFrame.SelectCk` | src/dynamic/mod.rs:253-264 | passes exactly when every requested name is a column; otherwise reports the first missing name |
| `Dynamic.DataFrame.Select` | src/dynamic/mod.rs:267-279 | fails when a requested name is missing; otherwise a fresh store with exactly the requested columns, copied, and the same `nrow` |
| `Dynamic.DataFrame.SelectMut` | src/dynamic/mod.rs:282-292 | on failure nothing changes; on success the requested columns are removed and `nrow` is kept |
| `Dynamic.DataFrame.SelectMutRetain` | src/dynamic/mod.rs:281 | the documented behaviour: only the requested columns are kept, the same columns that `select` returns |
| `Dynamic.SelectMutDiscrepancy` | src/dynamic/mod.rs:281-292 | on columns a, b: `select_mut(["a"])` leaves {b} while `select(["a"])` gives {a} |
| `Dynamic.SelectMutRetainExample` | src/dynamic/mod.rs:267-279 | the corrected form leaves {a}, the same as `select` |
| `DfToken.Df.New` | src/dynamic/df_token.rs:116-119 | a new notepad has no items |
| `DfToken.Df.Clone` | src/dynamic/df_token.rs:108 | a clone has the same items |
| `DfToken.Df.Index` | src/dynamic/df_token.rs:133-137 | appends `OwnColumn(name)` and returns the same notepad |
| `DfToken.Df.Add` | src/dynamic/df_token.rs:143-151 | a fresh copy with `Add` appended; the right operand is ignored and this notepad is unchanged |
| `DfToken.SumExample` | src/dynamic/df_token.rs:159-162 | `&d["x"] + &d["y"]` records `[x, y, Add]`, and `d` keeps `[x, y]` |
| `DfToken.StrayIndexExample` | src/dynamic/df_token.rs:122-129 | indexed columns that no `add` consumes keep accumulating |
| `DfTokenCopy.Df.New` | src/dynamic/df_token_copy.rs:131-138 | both `stack` and `stage` are empty |
| `DfTokenCopy.Df.Clone` | src/dynamic/df_token_copy.rs:141-151 | a clone has copies of both lists |
| `DfTokenCopy.Df.Index` | src/dynamic/df_token_copy.rs:160-164 | appends `OwnColumn(name)` to `stage` only and returns the same notepad |
| `DfTokenCopy.Df.Add` | src/dynamic/df_token_copy.rs:173-186 | needs two staged items; the copy's stack gains the last and second-to-last staged items and `Add`, its stage is cleared, and this notepad is unchanged |
| `DfTokenCopy.SumExample` | src/dynamic/df_token_copy.rs:197 | `&d["x"] + &d["y"]` records `[y, x, Add]` with an empty stage |
| `DfTokenCopy.StrayIndexExample` | src/dynamic/df_token_copy.rs:199-205 | an extraneous indexed column does not reach the output |
| `DfTokenCopy.NestedSumExample` | src/dynamic/df_token_copy.rs:207-210 | in `&(&d["a"] + &d["b"]) + &d["c"]` the left operand's stage is empty and `c` is staged on `d`, so the outer `add` cannot be called |

## Left out

- Rayon's parallel execution. Only its order guarantees matter, and they match sequential evaluation.
- `fmt::Debug` for the typed store (src/lib.rs:238-257), the `csv_test_print` test and tests/csv.rs. These are CSV, table rendering and printing.
- The `traits` module of src/lib.rs:11-18 and src/impls/*. They only name marker bounds (`Send`, `Sync`, serde) and have no behaviour.
- src/dynamic/dft4.rs and src/dynamic/dft2.rs. These prototypes do not compile, and their sound ideas repeat src/lib.rs.
- The dynamic `filter` stub (src/dynamic/mod.rs:295-298). It always errors and refers to a type that does not exist.
- `ErrorString` and the message texts (src/dynamic/mod.rs:313-394), and `Error::print`. An error records only which check failed.
- The `main`/`test` printing helpers of the two token files, the malformed `select!` macro (src/select/mod.rs:8-14) and the commented-out `spread`.
- `f32`/`f64` column entries are stored as their bit patterns (`bv32`/`bv64`). No arithmetic is done on them.
- Cloning and ownership. Rows are values, so a clone is the value itself. `transform_mut` consuming its store is not modelled.
- The modular `lookup` passes the pair as a tuple `(s, o)`. Here it is two arguments.
- `Gather.MacroCollect`: a field the record lacks reads as `None`. Rust rejects such a macro call at compile time, and every law about the macro assumes `HasFields`.
- `Dynamic.DataFrame.RbindCkBase`: a missing column and a type mismatch are the same `IncompatibleColumns` error. The source reports whichever it meets first in `HashMap` order, which is unspecified.
- `Dynamic.DataFrame.CbindCk`: a shared column name gives `ConflictingColumns` without the name. Which shared name comes first depends on `HashMap` order.
- `Dynamic.DataFrame.Rbind`: `nrow` is unbounded, so `usize` overflow of `self.nrow + other.nrow` is not modelled.
- `Dynamic.DataFrame.RbindMut`: `usize` overflow of `nrow` is not modelled. It requires `other != this`, because Rust's borrow rules forbid passing a store to its own `_mut` form.
- `Dynamic.DataFrame.CbindMut`: it requires `other != this`, for the same reason.

## Findings

| source | as written | input that shows it | evidently intended | confidence | as-written member | corrected member |
|---|---|---|---|---|---|---|
| src/dynamic/mod.rs:281-292 | `select_mut` removes the requested columns | a store with columns `a` and `b`; `select_mut(["a"])` leaves only `b` | keep only the requested columns, as the doc comment at line 281 says and as `select` does | high, since the doc comment and `select` agree; not executed | `Dynamic.SelectMutDiscrepancy` | `Dynamic.DataFrame.SelectMutRetain` |
