# Filtro Konsi — eligibility and offer engine, modelled in Dafny

This project models the core of a payroll-loan campaign filter. The filter
takes a table of public-sector customers (one row per customer and
registration number, with their available margins) and a list of bank
configurations. It produces the campaign sheet that is handed to the sales
team. The pipeline has these stages:

- **Preprocessing.** Names are title-cased and the CPF loses its `.` and
  `-`. Excluded lotações and vínculos are dropped, and so is anyone born
  before the age cut-off.
- **Calculation.** One of four campaign calculators runs: Novo (new loan),
  Benefício (benefit card withdrawal), Cartão (payroll card) or Benefício &
  Cartão. Each calculator:
  - applies its agreement-specific carve-outs and its margin floor or
    ceiling;
  - walks the bank configurations in order. Each configuration claims only
    the rows that are still unclaimed and match its condition, and writes
    the released value, instalment, commission, bank and term on them;
  - keeps only the rows that reach the minimum commission.
- **Sorting.** The result is sorted by the campaign's headline value.
- **Finalisation.** Missing schema columns are added and duplicate CPFs are
  dropped. The columns are projected and renamed. Every row is stamped with
  the campaign label, and a share of the rows is relabelled for the
  automated-call team.

A second path reads a simulation export. It picks the simulation with the
most instalments per row, parses its amounts (Brazilian or US notation),
filters and prices the rows, and finalises them the same way. The data layer
contributes two pieces of logic:

- the merge of restriction rows into three duplicate-free lists;
- the choice of separator for an uploaded simulation file.

## How the model is organised

Each module corresponds to part of `filters.py` or `data_handler.py`:

| module | models |
|---|---|
| `SafetyMargin` | the safety-margin haircut |
| `Conditions` | the conditional mask of a bank configuration |
| `Preprocessing` | the common cleaning and filtering |
| `Ledger` | the claim loop shared by the calculators |
| `Calculators` | the four campaigns |
| `Sorting` | the descending sort |
| `Dedup` | `drop_duplicates` |
| `Finalizing` | the finaliser |
| `Pipeline` | the dispatch |
| `Simulation` | the simulation path |
| `DataHandler` | the restriction merge and the separator rule |

`Text`, `Numbers`, `Rows`, `Wrappers` and `Model` hold the string, number
and table vocabulary.

Money is `real`. The engine's `round(2)` is `Numbers.Round2`, which rounds
half up on exact reals. A missing (NaN) working value is `None`.

**The claim ledger.** The calculators keep one ledger entry per row: the
claim flag (`tratado`) and the columns written under the mask. Each
configuration changes the ledger in one vectorised step (`Ledger.Step`),
the way `base.loc[mask, ...] = ...` does. Each calculator's loop keeps this
invariant: after `k` configurations, every entry equals
`Ledger.Settled(..., cfgs[..k], row)`, which is the row's outcome stated
declaratively through the first configuration that claims it
(`Ledger.FirstClaim`). The first-claim-wins, card, govsp and ordering
properties are lemmas about `Settled`.

**Parameters instead of hidden inputs.** These appear as parameters:

- the date string of the campaign label;
- the rows the restriction query returns;
- the final column schema and its renaming;
- the random sample, given as a function that returns some set of the
  right size (`Finalizing.SamplerSound`).

## Model

| member | source | states |
|---|---|---|
| SafetyMargin.Apply | filters.py:13-32 | Same length and order as the input. The input comes back unchanged when the margin is disabled or the mode is unrecognised, and also for 0 %. Percentage mode multiplies each margin by `1 - v/100`. Fixed mode subtracts `v` and clamps at 0. |
| SafetyMargin.ApplyAt | filters.py:13-32 | The haircut is elementwise: position `i` of the result depends only on position `i` of the input. |
| SafetyMargin.ApplyCommutesWithSelection | filters.py:93-94 | Adjusting the masked sub-series (`base.loc[mask, ...]`) gives the same values as adjusting everything and then selecting. |
| SafetyMargin.FixedAmountBounds | filters.py:28-30 | In fixed-amount mode a non-negative margin ends up between 0 and its old value. |
| SafetyMargin.PercentageBounds | filters.py:24-26 | With a percentage between 0 and 100, a non-negative margin ends up between 0 and its old value. |
| Conditions.KeywordList | filters.py:46 | Keywords are exactly the stripped, non-empty `;`-pieces of the value. Each is non-empty, has no surrounding space and holds no `;`. |
| Conditions.NonBlankExact | filters.py:46 | Every non-blank piece has its stripped form in the list, and every listed keyword is the stripped form of some piece. |
| Conditions.SingleKeyword | filters.py:46 | A value without `;` gives the one keyword `strip(value)`, or no keyword when it is blank. |
| Conditions.Mask | filters.py:35-52 | The mask covers unclaimed rows only. When the condition does not narrow it, it is exactly the unclaimed rows. In keyword mode, a row is in the mask iff it is unclaimed and some keyword is a case-insensitive substring of its text cell; a null cell never matches, and an empty keyword list does not narrow. In the other mode the row's cell must equal the value. |
| Conditions.PermissiveFallbacks | filters.py:41-44 | The mask is exactly the unclaimed rows in each of these cases: the column is "Aplicar a toda a base", the column is absent, the column is entirely null, or the value is falsy. |
| Rows.Where | filters.py:66-74 | Boolean indexing keeps no more rows, each kept row is an input row the mask accepts, and every accepted input row is kept. |
| Rows.WhereAll | filters.py:66-74 | A mask that accepts every row keeps the table as it is. |
| Rows.WhereSame | filters.py:66-74 | Two masks that agree on every row keep the same rows in the same order. |
| Rows.WhereThen | filters.py:66-74 | Filtering by one mask and then by another gives exactly the rows of their conjunction, in order. |
| Preprocessing.Cleaned | filters.py:59-64 | A text name is title-cased and a text CPF loses every `.` and `-`. Margins, birth date, lotação and vínculo are untouched. |
| Preprocessing.CleanedRows | filters.py:59-64 | The cleaning maps every row and keeps the row count and order. |
| Preprocessing.CleanedCells | filters.py:59-64 | A cleaned text CPF has no `.` or `-`, and a cleaned text name is already title-cased: title-casing it again changes nothing. |
| Preprocessing.CleanedKeepsFilters | filters.py:66-74 | Cleaning does not change whether a row is excluded by lotação or vínculo, and keeps its birth date, so the age cut-off sees the same date. |
| Preprocessing.SomeBirthDate | filters.py:71 | The age filter's guard (some birth date is present) has the same value on the cleaned rows that survive the exclusions as on the input rows the exclusions keep: cleaning does not change it. |
| Preprocessing.CleanRows | filters.py:59-64 | The name and CPF rewrites produce exactly the cleaned rows. |
| Preprocessing.CleanedRowsClean | filters.py:59-64 | Every cleaned row has a CPF without `.` or `-` and a title-cased name, where those cells are text. |
| Preprocessing.Exclude | filters.py:66-69 | The kept rows are exactly the input rows whose lotação and vínculo are not excluded, in input order and with every copy. There are no more of them, and a row is kept iff it is an input row that is not excluded. |
| Preprocessing.Survivors | filters.py:55-76 | The preprocessed table as a function of the input: same columns, no more rows, and a row is in it iff it is a cleaned input row that survives the exclusions and the age cut-off. |
| Preprocessing.Preprocess | filters.py:55-76 | The result is exactly `Survivors`: the same rows in input order, every copy included. Same columns and no more rows. A row survives iff it is a cleaned input row that is not excluded by lotação or vínculo and, when the age filter runs, was born on or after the cut-off. Surviving CPFs hold no `.` or `-`, and surviving names are title-cased. |
| Ledger.Commission | filters.py:97 | A commission exists iff the released value does. A zero value gives a zero commission, and non-negative inputs give a non-negative one. |
| Ledger.Installment | filters.py:156 | An instalment exists iff the released value does and the instalment coefficient is not 0. A zero value gives a zero instalment. |
| Ledger.Claim | filters.py:156-160 | A claimed entry carries the configuration's bank and term, the commission of its released value, and the claim flag. |
| Ledger.Step | filters.py:91-100 | One configuration's vectorised write. The claim flag becomes old flag ∨ (configuration selected ∧ condition applies), so it only goes from false to true. A row claimed earlier keeps every column except the released value, which only the govsp zeroing can reset to 0. |
| Ledger.FirstClaim | filters.py:91-100 | The index of the first selected configuration whose condition applies to the row. No earlier selected configuration applies to it, and `None` means no selected configuration applies. |
| Ledger.StepSettles | filters.py:121-160 | One `Step` on the ledger settled by the first `k` configurations gives the ledger settled by the first `k+1`. This is the calculators' loop invariant. |
| Ledger.FirstMatchWins | filters.py:90-100 | The first configuration that applies claims the row and supplies its bank, term and commission. |
| Ledger.NoMatchStaysUnclaimed | filters.py:150-151 | A row no configuration applies to keeps its initial entry, except that the govsp rule may zero its released value. |
| Ledger.CardAllOrNothing | filters.py:180-188 | A claimed card row whose total and available card margins differ has released value 0 and commission 0, whatever the coefficient. |
| Ledger.UsedElsewhereZeroed | filters.py:150-151 | Once any configuration has run, a govsp row whose registration used the margin elsewhere has released value 0, claimed or not. If it is claimed, its commission is 0 too. |
| Ledger.FirstClaimExtends | filters.py:100 | Appending configurations does not change a row's first claim. |
| Ledger.ClaimIsFinal | filters.py:100 | Once a row is claimed, later configurations leave its entry unchanged. |
| Ledger.FirstClaimIgnoresOrder | filters.py:120 | The first claim of a row does not depend on the order of the table's rows. |
| Ledger.SettledIgnoresOrder | filters.py:120 | A row's settled entry does not depend on the order of the table's rows, so the pre-sort of the Benefício table does not change any offer. |
| Calculators.NovoBase | filters.py:80-88 | The Novo base holds the input rows that pass the agreement's carve-out and the margin floor, and only those. For govsp the carve-out drops registrations with a negative loan margin; for govmt it drops negative compulsory margins. |
| Calculators.BasesIgnoreOrder | filters.py:80-174 | The Novo, Benefício and card bases of two tables with the same rows, in any order, have the same rows; in particular the govsp negative-margin registrations are the same. |
| Calculators.NovoRows | filters.py:80-88 | The filtered Novo table has the same rows as the Novo base, and no more rows than the input. |
| Calculators.CalcularNovo | filters.py:79-103 | Every output row is a Novo-base row carrying its settled entry. Every base row meeting the minimum commission is in the output, and with no configuration every base row is kept. Every output row has loan margin ≥ the floor. When configurations exist, every output commission is ≥ the minimum. The output has no more rows than the input. The calculator raises iff configurations exist, the Novo base is empty and `banco_emprestimo` or `prazo_emprestimo` is not already a column: pandas refuses to create a column from a scalar on a table without rows (lines 98-99). A raise yields no rows. |
| Calculators.BenefitBase | filters.py:106-118 | The Benefício base holds the input rows that pass the govsp exclusions (untouched withdrawal margin, not ALESP), the untouched-withdrawal rule for agreements outside the exempt list, and the margin ceiling. |
| Calculators.BenefitRows | filters.py:106-120 | The sorted Benefício table has the same rows as the base, and the govsp used-elsewhere set is computed before the filters. |
| Calculators.CalcularBeneficio | filters.py:105-163 | As for Novo, over the Benefício base with the margin ceiling. Outside the exempt agreements, every output row has an untouched withdrawal margin. It raises iff configurations exist, the Benefício base is empty and `banco_beneficio` or `prazo_beneficio` is not a column (lines 158-159). |
| Calculators.CeilingBase | filters.py:169-174 | The card base holds the input rows that are not ALESP (govsp only) and are under the margin ceiling. |
| Calculators.CardRows | filters.py:166-174 | The filtered card table is the ceiling base, and the used-card set is computed before the ceiling filter. |
| Calculators.CalcularCartao | filters.py:165-201 | As for Novo, over the card base with the margin ceiling. The card all-or-nothing rule and the govsp zeroing hold through `Settled`. It raises iff configurations exist, the card base is empty and `banco_cartao` or `prazo_cartao` is not a column (lines 195-196). |
| Calculators.Total | filters.py:278 | The combined commission exists iff both commissions do, and it is non-negative when both are. |
| Calculators.ComboRows | filters.py:217-224 | The combined table is the ceiling base, with both used sets. |
| Calculators.ComboLedgers | filters.py:226-274 | After the loop, the benefit ledger is settled over the Benefício configurations and the card ledger over the card configurations, each row by its own first claim. Each configuration reaches only the ledger of its product. |
| Calculators.CalcularBeneficioECartao | filters.py:203-280 | Each output row carries two independent ledgers. One is settled over the Benefício configurations with its own claim flag, the other over the card configurations with its own claim flag. A row is kept iff its combined commission meets the minimum, and the ceiling and row-count bounds hold. |
| Sorting.Insert | filters.py:326-335 | Insertion adds exactly one element: the multiset grows by that element. |
| Sorting.InsertSorted | filters.py:326-335 | Inserting into a descending sequence keeps it descending. |
| Sorting.SortDesc | filters.py:326-335 | The result is sorted descending by the key, with missing values last, and is a permutation of the input. |
| Sorting.SortKeepsRows | filters.py:326-335 | Sorting neither adds nor loses a row. |
| Dedup.FirstOccurrences | filters.py:289 | No two kept rows share a key. Every kept row comes from the input, and every input key is represented. |
| Dedup.FirstOccurrencesExact | filters.py:289 | The kept rows are exactly the first occurrences of their keys. |
| Finalizing.LabelsDiffer | filters.py:296-308 | The team label and the automated-call label are the same only when the team is itself named `convai`. |
| Finalizing.ConvaiCount | filters.py:303-306 | The number relabelled is at most the row count when the percentage is at most 100, and is 0 when the percentage is not positive or the table is empty. |
| Finalizing.FillColumns | filters.py:285-287 | The columns become the old columns plus every schema column, and the row count is unchanged. |
| Finalizing.AddMissingColumns | filters.py:285-287 | The column loop produces exactly the filled columns and rows. |
| Finalizing.PickedShare | filters.py:303-307 | A sound sampler relabels exactly `ConvaiCount` rows, all within the table. |
| Finalizing.FillColumnsCells | filters.py:285-287 | An added schema column reads `""`, and every other cell is unchanged. |
| Finalizing.Named | filters.py:291-293 | Every schema column appears under its renamed header. Only `Campanha` carries the label, and every other header is a renamed schema column. |
| Finalizing.Stamped | filters.py:301 | `Campanha` is present and nothing else is added. |
| Finalizing.Layout | filters.py:291-311 | No working column remains, and `Campanha` is present. Every schema column whose renamed header is not a working column is present. |
| Finalizing.Finalize | filters.py:282-313 | The header is the layout. There is one output row per first occurrence of each CPF. Each cell is the renamed source column, or the label: the automated-call label on the sampled rows and the team label on all others. Exactly `ConvaiCount` rows are sampled, all within range. |
| Finalizing.KeptRowsBound | filters.py:288-289 | Deduplication never adds rows. |
| Finalizing.LayoutHeader | filters.py:291-311 | The finished header has `Campanha` and no working column. |
| Finalizing.OneRowPerCpf | filters.py:288-289 | After deduplication CPFs are unique. Every CPF of the table is kept, and each kept row is the first one with its CPF. |
| Pipeline.RenderPriced | filters.py:90-100 | The rendered table has one row per priced row, plus the claim-flag column and the product's output columns. |
| Pipeline.RenderPairs | filters.py:205-216 | The rendered combined table has one row per priced pair. |
| Pipeline.PriceSingle | filters.py:324-332 | Dispatch to the campaign's calculator, then the descending sort by released value. It raises iff the calculator raises, and the sorted rows are exactly the calculator's rows: base rows with their settled entries, every row meeting the minimum included. |
| Pipeline.PriceCombo | filters.py:333-335 | The combined calculator, then the descending sort by combined commission, keeping exactly the calculator's pairs. |
| Pipeline.AplicarFiltros | filters.py:315-342 | An unknown campaign gives the empty sheet. A single-product campaign fails in two cases. With no configuration, it fails iff its sort column is not an input column; the error names that column. With configurations, it fails iff its calculator's base over the preprocessed table is empty and its bank or term column is not an input column; the error names the first such column written from a scalar. The combined campaign never fails. On success, the calculated table is the rendering of the sorted priced rows: for a single product, rows of the campaign's base over `Survivors`, sorted descending by released value, each with its settled entry, and every base row reaching the minimum commission (every base row when there is no configuration); for the combined campaign, the same by combined commission. An empty calculation gives the empty sheet; any other is exactly the finalised table, which has no more rows than the input, has `Campanha` and no working column. |
| Simulation.RunLength | filters.py:357 | The length of the maximal leading run of characters in a class. |
| Simulation.FindTermFormatted | filters.py:357-359 | An item that starts with `<n>x:` has instalment term `n`. |
| Simulation.FindTermSkips | filters.py:357 | A digit-free prefix does not change the leftmost `<digits>x:` match. |
| Simulation.BestOfFirstMaximum | filters.py:349-363 | The best item is `None` iff no item has a positive term. Otherwise it is an item whose term is strictly greater than every earlier term and at least every later term, so the first item with the greatest term wins. |
| Simulation.BestItem | filters.py:349-363 | The running-maximum loop returns the specified best item, with the same `None` condition and the same first-maximum property. |
| Simulation.NormalizeNumber | filters.py:369-376 | A parsed number from text without `-` is non-negative. |
| Simulation.NormalizeBrazilian | filters.py:373-376 | Brazilian notation (`.` thousands groups and `,` decimals) parses to its value. |
| Simulation.NormalizeUS | filters.py:376 | US notation with a `.` decimal point parses to its value. |
| Simulation.NormalizeExample | filters.py:371 | `"16.000,50"` gives 16000.5. |
| Simulation.Extract | filters.py:393-396 | An extraction has a non-empty digit term and two amounts made of digits, `.` and `,`. |
| Simulation.ExtractFormatted | filters.py:393-396 | An item of the form `<n>x: <valor> (parcela: <parcela>)…` extracts exactly those three groups. |
| Simulation.BestItems | filters.py:389-390 | One best item per row. |
| Simulation.WithOffer | filters.py:393-410 | The released value is the normalised amount of the best item, or missing. Only the four offer columns change. |
| Simulation.Identity | filters.py:413-418 | A CPF becomes digits only, and only CPF and name change. |
| Simulation.WithSaldo | filters.py:428-429 | With the outstanding-balance filter on, the balance becomes a number, and no other column changes. |
| Simulation.Processed | filters.py:393-441 | A processed row has the offer's value and the commission `round2(valor × rate)`, where a missing value counts as 0. The bank is `243`, the CPF is digits only, and the balance is numeric under the filter. |
| Simulation.SimTable | filters.py:378-441 | The table adds the simulation columns and has no more rows than the input. Its rows are exactly the processed input rows that pass the filters. |
| Simulation.SimRowFacts | filters.py:421-441 | Every kept row has a positive released value, its commission from that value, commission ≥ the minimum, bank `243`, a digits-only CPF and, under the filter, a positive balance. |
| Simulation.KeptRowFacts | filters.py:421-438 | A processed row that passes the filters has a positive value, the commission of that value, and a commission ≥ the minimum. |
| Simulation.AplicarFiltroSimulacoes | filters.py:378-446 | The path fails iff the simulations column is missing, there are no rows, or no row survives the filters while `banco_beneficio` is not an input column (pandas refuses the scalar bank `243` on an empty table, line 441). The error says which. On success the sheet is the finalised simulation table under the Benefício campaign. |
| DataHandler.ProductSlug | data_handler.py:65-71 | The four campaign names map to their fixed slugs, and any other name is lower-cased. No slug has an upper-case letter. |
| DataHandler.ProductSlugIdempotent | data_handler.py:65-71 | Mapping a slug again gives the same slug. |
| DataHandler.ProductSlugsDistinct | data_handler.py:65-70 | The four campaigns have four different slugs. |
| DataHandler.ValuesOf | data_handler.py:83-88 | The values of one kind, in order. Each comes from a row of that kind, and every such row's value is there. |
| DataHandler.MergedStep | data_handler.py:83-90 | One more row appends its value to its own list unless that list already holds it, and leaves the other lists as they were. |
| DataHandler.BuscarRestricoes | data_handler.py:55-92 | A missing client, agreement or product, or a failed query, gives three empty lists. Otherwise the loop's result is the merge of the rows. |
| DataHandler.MergedFacts | data_handler.py:88-90 | Each list has no duplicates and holds exactly the values of its kind among the rows. |
| DataHandler.UnknownKindIgnored | data_handler.py:88 | A row of an unknown kind changes nothing. |
| DataHandler.FirstLine | data_handler.py:121 | The first line exists iff the file is non-empty. It is a prefix without line breaks that ends at the first break. |
| DataHandler.Separator | data_handler.py:121-122 | The separator is `;` iff the first line has strictly more `;` than `,`, and `,` otherwise. An empty file has none. |
| DataHandler.SeparatorOfHeader | data_handler.py:121-122 | A header of two or more names joined by `;` (or by `,`) is read with that separator. |
| Text.TitleIdempotent | filters.py:60-61 | Title-casing a title-cased name changes nothing. |
| Text.StripIdempotent | filters.py:46 | Stripping twice is stripping once. |
| Text.JoinSplit | filters.py:46 | Joining the pieces of a split gives the text back. |
| Text.SplitJoin | filters.py:389 | Splitting a join of separator-free pieces gives the pieces back. |
| Text.KeepDigitsOfDigits | filters.py:414 | Deleting non-digits from a digit string changes nothing. |
| Numbers.Round2Facts | filters.py:95 | Rounding to cents keeps non-negative values non-negative, moves a value by at most half a cent, is idempotent and keeps 0. |
| Numbers.Round2Monotone | filters.py:95 | Rounding to cents is monotone. |
| Numbers.ParseDigitsOf | filters.py:376 | Parsing a number's decimal digits gives the number back. |
| Numbers.ParseDecimalText | filters.py:376 | `<n>.<cc>` parses to `n + cc/100`. |

## Left out

- Input tables that already carry calculator output columns (`valor_liberado_*`, `valor_parcela_*`, `comissao_*`, `banco_*`, `prazo_*`, `tratado`) are modelled only as far as the failure conditions go. The model starts every ledger entry unwritten, so a value an input row already holds in such a column is not carried over to a row no configuration claims. With no configuration and an input `comissao_*` column, the source's minimum-commission filter (filters.py:101-102) runs on the input's own commissions; the model keeps every base row.
- Conditions.Mask: condition values and cells are text. The model misses three pandas behaviours on numeric columns (filters.py:44-51). The `.str` accessor raises an `AttributeError` on a numeric column in keyword mode. Equality compares numbers. A numeric value of 0 counts as falsy, so it does not narrow the mask.
- Preprocessing.Exclude: the exclusion lists and the lotação and vínculo cells are text, so `isin` on numeric cells is not modelled (filters.py:66-69).
- Text.Strip: strips ASCII whitespace only. Python's `str.strip` also removes `\x1c`-`\x1f`, `\x85`, `\xa0` and the Unicode space characters (filters.py:46).
- Simulation.FindTerm, Simulation.Extract and Simulation.Identity: `\d` and `\D` are read as ASCII digits. Python's `re` also matches the other Unicode decimal digits (filters.py:357, 394, 414).
- DataHandler.ProductSlug: lower-cases ASCII letters only, where `str.lower()` lower-cases every cased letter (data_handler.py:71).
- Text.Title: case mapping covers ASCII letters only, and a non-ASCII letter counts as a word boundary. So "joão" becomes "JoãO" and "CONCEIÇÃO" becomes "ConceiÇÃO", where `str.title` gives "João" and "Conceição". Case-insensitive keyword matching is ASCII-only for the same reason.
- Numbers.Round2: rounds half up on exact reals; pandas rounds binary floats half to even, so values on a half-cent boundary can differ.
- Which rows `sample(random_state=42)` picks: any set of the right size is allowed, through the sampler parameter.
- The tie order of `sort_values`: the model proves the order is descending and a permutation; it does not fix which of two equal keys comes first.
- `datetime.today()`: the date string is a parameter.
- Date parsing with `dayfirst=True, errors='coerce'`: the birth date arrives already parsed, or missing.
- NaN or missing margin cells and non-numeric margins: margins are typed reals.
- `KeyError` for missing margin, `Matricula`, `Lotacao` or `Vinculo_Servidor` columns: those columns are assumed present.
- Exponents, surrounding spaces, `inf` and `nan` in `pd.to_numeric`: numbers are parsed as optional sign, digits and optional decimal part.
- `int(p/100 * n)` on floats: the count is computed exactly, as `p * n / 100` rounded down.
- Finalizing.Finalize: requires a percentage of at most 100; above that, `sample` raises instead of returning a sheet.
- `config.py` is not part of this model: the final column order and the renaming map are parameters.
- A `coeficiente_parcela` of 0 gives infinity or NaN in pandas; the model records a missing instalment instead.
- `params['tipo_campanha']` being overwritten by the simulation path is not modelled; the simulation path finalises under the Benefício campaign directly.
- `st.error` / `st.warning` in the simulation path: `st` is not imported in `filters.py`, so these calls raise; the model returns a failure value for each early exit.
- The `.str` accessor raising on a column that holds no text: CPF cells that are not text become missing.
- The `None` padding of `str.split(expand=True)`: each row's items are its own pieces.
- The Supabase client, the query call and the exception handler around it: the query's rows are an input, and a failed query is `None`.
- Reading and concatenating CSV files and `converter_df_para_csv`: file I/O.
- The user-interface module: form widgets only.
