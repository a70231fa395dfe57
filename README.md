# export_letterhead in Dafny

A model of the core of the Frappe app `export_letterhead`. The app puts a
configurable letterhead on top of every spreadsheet and CSV export, and sets
a chosen font on every row of the spreadsheet. It replaces six of the host's
export functions with wrappers. Each of the four data wrappers reads the settings. If the
feature is on, the wrapper renders the letterhead template and turns it into
rows, puts those rows in front of the exported data, and calls the host's
original function. For spreadsheets it then restyles the result. Two of the
wrappers sit at report level. They leave a context for the lower-level
wrappers in the request-local `export_letterhead_context`.

Modules:

- `Wrappers` holds `Option` and `Result`. `Err` stands for a Python
  exception that propagates.
- `Text` holds Python's `str.strip` (Python's whitespace set), `str.split`
  on one character, and `int()` on a string.
- `PyValue` holds the Python values that flow through the code (`None`,
  `str`, `int`, `bool`), truthiness, `a or b`, and the first-present-value
  search that both lookup helpers perform.
- `Fonts` holds font-name sanitisation and font-size coercion and bounding,
  which the source writes twice.
- `Utils` models `utils.py`: settings, the template context, row generation.
- `Sheet` models the active worksheet and the in-place restyle loop.
- `Patches` models `patches.py`:
  - the parameter helper;
  - the installer, a class over the registry and the host's bindings;
  - the wrappers, a class over the request-local context override.

Host services are parameters of the model:

- the settings record;
- the session, clock, company default and request form (`Utils.Env`);
- the template renderer;
- the report's reference doctype;
- the host's original export functions.

The rows whose restyle raises are a parameter too: a set of row numbers.

## Model

| member | source | states |
|---|---|---|
| Text.Strip | export_letterhead/utils.py:63-64 | the result has no leading or trailing whitespace, is no longer than the input, and is empty exactly when the input is all whitespace |
| Text.StripDecompose | export_letterhead/utils.py:63-64 | the input is the stripped text with a whitespace-only prefix and suffix around it |
| Text.StripIdempotent | export_letterhead/utils.py:63-64 | stripping twice is stripping once |
| Text.StripPadded | export_letterhead/utils.py:104 | whitespace padding on either side does not change the stripped result |
| Text.Split | export_letterhead/utils.py:295 | splitting yields one more piece than there are separators |
| Text.SplitJoin | export_letterhead/utils.py:295 | joining the pieces with the separator gives back the original text |
| Text.SplitPiecesFree | export_letterhead/utils.py:295 | no piece contains the separator |
| Text.JoinSplit | export_letterhead/utils.py:295 | splitting a join of separator-free pieces gives back those pieces |
| Text.ParseInt | export_letterhead/utils.py:91 | `int(s)` succeeds exactly when the stripped text is digits after at most one sign, and gives a non-negative value without a minus sign |
| Text.ParseIntRoundTrip | export_letterhead/utils.py:91 | `int(str(i)) == i` for every integer |
| Text.ParseIntPadded | export_letterhead/utils.py:91 | whitespace around the decimal text of an integer is ignored: `int(" 12 ") == 12` |
| Text.ParseIntPlus | export_letterhead/utils.py:91 | a leading `+` is accepted: `int("+" + str(n)) == n` |
| Text.DigitsValueLeadingZero | export_letterhead/utils.py:91 | a leading zero does not change the value of a run of digits |
| Text.ParseIntLeadingZero | export_letterhead/utils.py:91 | leading zeros are accepted: `int("0" + str(n)) == n` |
| PyValue.Or | export_letterhead/patches.py:491 | `a or b` is `a` when `a` is truthy and `b` otherwise, so it is truthy iff either operand is |
| PyValue.FirstPresent | export_letterhead/utils.py:53-67 | any value found is neither `None` nor empty, and a string found is stripped |
| PyValue.FirstPresentNone | export_letterhead/utils.py:53-69 | nothing is found iff no key holds a present value after stripping |
| PyValue.FirstPresentFirst | export_letterhead/utils.py:53-67 | the value found is the one under the first key that holds a present value |
| PyValue.FirstTruthy | export_letterhead/utils.py:151-168 | the result is truthy when any candidate is; the fallback is used when none is truthy |
| PyValue.FirstTruthyFirst | export_letterhead/utils.py:151-168 | when some candidate is truthy, the result is the first truthy candidate: every one before it is falsy |
| Fonts.KeepFontChars | export_letterhead/utils.py:104 | the filter keeps only word, whitespace and hyphen characters and never lengthens the name |
| Fonts.KeepFontCharsAppend | export_letterhead/utils.py:104 | the character filter distributes over concatenation |
| Fonts.KeepFontCharsKeeps | export_letterhead/utils.py:104 | a name made only of kept characters passes the filter unchanged |
| Fonts.KeepFontCharsDrops | export_letterhead/utils.py:104 | a character outside word characters, whitespace and `-` is deleted |
| Fonts.SanitizeFontName | export_letterhead/utils.py:95-106 | the name is non-empty, unpadded and made only of kept characters; it is "Arial" or the stripped, filtered input |
| Fonts.StripFirstIrrelevant | export_letterhead/utils.py:97-104 | stripping before filtering does not change the result |
| Fonts.SanitizeFontNameChar | export_letterhead/utils.py:95-106 | the name is the stripped, filtered input, or "Arial" exactly when that is empty |
| Fonts.SanitizeValidName | export_letterhead/patches.py:220-231 | a name the sanitiser can produce passes through it unchanged |
| Fonts.SanitizeFontNameIdempotent | export_letterhead/patches.py:220-231 | sanitising the sanitised name again changes nothing |
| Fonts.CoerceFontSize | export_letterhead/utils.py:88-93 | a falsy size gives 11, a non-zero integer is kept, `True` gives 1, a non-empty string gives its `int()` value, and an unparsable string gives 11 |
| Fonts.ClampFontSize | export_letterhead/patches.py:233-243 | the size lies in 1..409: sizes in range are kept, sizes below 1 become 11, sizes above 409 become 409 |
| Fonts.NormalizeFontSize | export_letterhead/patches.py:233-243 | the size written to the sheet always lies in 1..409 |
| Fonts.NormalizeFont | export_letterhead/patches.py:220-246 | the font has a valid name and a size in 1..409 |
| Fonts.CoerceFontSizeString | export_letterhead/utils.py:91 | the decimal text of any integer coerces to that integer |
| Fonts.CoerceFontSizePadded | export_letterhead/utils.py:91 | the decimal text of an integer with whitespace around it coerces to that integer |
| Fonts.NormalizeCoercedSize | export_letterhead/patches.py:233-243 | bounding the size that utils.py already coerced equals bounding the raw size |
| Fonts.SanitizeCalibriExample | export_letterhead/utils.py:104 | " Calibri! " sanitises to "Calibri" |
| Fonts.NormalizeFontClampExample | export_letterhead/patches.py:220-243 | (" Calibri! ", 500) normalises to Calibri 409 |
| Fonts.NormalizeFontDefaultExample | export_letterhead/patches.py:220-243 | ("", 0) normalises to Arial 11 |
| Fonts.SanitizeTimesExample | export_letterhead/patches.py:200-206 | "Times New Roman" is kept as it is |
| Fonts.NormalizeFontStringSizeExample | export_letterhead/patches.py:220-243 | ("Times New Roman", "12") normalises to Times New Roman 12 |
| Utils.SafeGetValue | export_letterhead/utils.py:43-69 | a falsy source gives `None`; otherwise the result is `None` or a present value, and a string result is stripped and non-empty |
| Utils.SafeGetValueNone | export_letterhead/utils.py:43-69 | the result is `None` iff the source is falsy or no key holds a present value |
| Utils.SafeGetValueFirst | export_letterhead/utils.py:53-67 | a found value comes from the first key that holds a present value |
| Utils.GetSettings | export_letterhead/utils.py:72-117 | a failed fetch gives `None`; otherwise the flags and template are copied, the size is coerced but not bounded, and the font name is the filtered, stripped name, or "Arial" when that is empty |
| Utils.SessionName | export_letterhead/utils.py:147 | the user's full name when it is set, else the user id |
| Utils.CompanyOrBlank | export_letterhead/utils.py:171-174 | the user's default company, or `""` when the lookup raises |
| Utils.BuildContext | export_letterhead/utils.py:120-190 | the context has exactly the documented keys; it holds the user's display name, the company (blank when the lookup fails) and the clock |
| Utils.BuildContextNames | export_letterhead/utils.py:151-168 | the doctype is the first truthy of the explicit doctype, the form doctype, the explicit report name and the form report name (and the report name symmetrically), falling back to the form value |
| Utils.BuildContextNamesTogether | export_letterhead/utils.py:164-168 | after cross-filling, the doctype is truthy iff the report name is |
| Utils.BuildContextCrossFillExample | export_letterhead/utils.py:164-168 | a report name alone ("Sales Report") is copied into the doctype |
| Utils.RefreshContext | export_letterhead/utils.py:276-288 | raises iff the company lookup fails |
| Utils.RefreshContextFacts | export_letterhead/utils.py:276-288 | when the lookup succeeds, the keys are the old ones plus user, clock and company (and the report name when it is filled); a truthy report name is kept, a falsy one is filled from a truthy doctype; every other key is unchanged |
| Utils.ParseLine | export_letterhead/utils.py:298-306 | every line gives at least one cell |
| Utils.ParseLineCells | export_letterhead/utils.py:298-306 | a line with a tab gives the tab-free pieces that join back to it; a line with a pipe but no tab gives, for each pipe-free piece that joins back to the line, that piece stripped; any other line is one cell |
| Utils.LineRows | export_letterhead/utils.py:296-307 | a line gives no row exactly when it is blank after stripping, and otherwise one non-empty row |
| Utils.TemplateRows | export_letterhead/utils.py:293-307 | the rendered text gives at most one row per line, and no row is empty |
| Utils.RowsOfEachAppend | export_letterhead/utils.py:294-307 | parsing lines one after another yields the rows of each part in order |
| Utils.ParseLinesShape | export_letterhead/utils.py:294-307 | there are at most as many rows as lines, and no row is empty |
| Utils.ParseThreeLines | export_letterhead/utils.py:294-307 | three lines give the rows of the first, then the second, then the third |
| Utils.ParseLinesPrefix | export_letterhead/utils.py:294-307 | each step of the line loop appends the rows of that one line |
| Utils.WithTrailer | export_letterhead/utils.py:309-320 | the template rows come first, then the "Printed by" row if requested, then a `[""]` separator whenever any row precedes it |
| Utils.LetterheadRows | export_letterhead/utils.py:224-322 | off, no settings or an empty template gives no rows; an exception comes only from the company lookup; any rows end with `[""]` |
| Utils.LetterheadRowsCount | export_letterhead/utils.py:293-320 | the number of rows is the template rows, plus one for "Printed by", plus one separator if any |
| Utils.PrintedByRow | export_letterhead/utils.py:311-315 | the row has three cells, labelled "Printed by: ", "Date: " and "Time: " |
| Utils.LetterheadNoPrintedBy | export_letterhead/utils.py:309-320 | with "Printed by" off, the rows are the template rows and then the `[""]` separator, or no rows when the template gives none |
| Utils.LetterheadPrintedBy | export_letterhead/utils.py:309-320 | with "Printed by" on, the rows are the template rows, then the row naming the session user, the date and the time, then the `[""]` separator |
| Utils.TemplateRowsExample | export_letterhead/utils.py:293-307 | "A\tB\nC\|D\nE" becomes [["A","B"],["C","D"],["E"]] |
| Utils.RowsOfLines | export_letterhead/utils.py:294-307 | the line loop builds exactly the parsed rows of the rendered lines |
| Utils.GenerateLetterheadRows | export_letterhead/utils.py:224-322 | the imperative row generator returns exactly `LetterheadRows` |
| Sheet.StyleRow | export_letterhead/patches.py:253-263 | a styled row carries the font on the row and on every cell, with its values unchanged |
| Sheet.Restyled | export_letterhead/patches.py:249-268 | the restyled sheet has the same shape and values; each row that does not fail carries the font everywhere, and a failing row is unchanged |
| Sheet.RestyledAll | export_letterhead/patches.py:249-268 | with no failing row, every row and cell carries the font |
| Sheet.RestyledIdempotent | export_letterhead/patches.py:249-268 | restyling twice with the same font is restyling once |
| Sheet.MaxColumn | export_letterhead/patches.py:261 | `ws.max_column` is at least 1, no row is wider, and it is 1 or the width of some row |
| Sheet.PadRow | export_letterhead/patches.py:261 | `ws[r]` yields the row's own cells, then blank unstyled cells up to the sheet's width |
| Sheet.Padded | export_letterhead/patches.py:249-263 | every row is as wide as `ws.max_column`, keeps its font and its own cells in front, and is filled with blank cells |
| Sheet.PaddedIdempotent | export_letterhead/patches.py:249-263 | a sheet already padded to `ws.max_column` is not widened again |
| Sheet.Worksheet.Load | export_letterhead/patches.py:216-217 | the loaded worksheet holds the file's rows as `ws[r]` yields them, padded to `ws.max_column` |
| Sheet.Worksheet.ApplyFont | export_letterhead/patches.py:249-268 | the nested in-place loop turns the rows into exactly `Restyled` of the rows before |
| Sheet.SettingsFont | export_letterhead/patches.py:220-246 | the font from the settings has a valid name and a size in 1..409, and keeps a valid name and an in-range size |
| Sheet.SettingsFontOfRecord | export_letterhead/patches.py:220-246 | normalising the settings `_get_settings` produced gives the same font as normalising the stored record directly |
| Sheet.RestyledFile | export_letterhead/patches.py:249-286 | the file comes back at position 0, readable exactly when it was, with as many rows as before, every row as wide as `ws.max_column` and holding its own values in front |
| Sheet.ApplyFontToAllRows | export_letterhead/patches.py:185-286 | a readable file comes back restyled and at position 0 with the same number of rows; an unreadable one comes back unchanged, rewound to 0 |
| Patches.GetParamValue | export_letterhead/patches.py:42-65 | a falsy source gives the default; any other result is a present value, and a string result is stripped and non-empty |
| Patches.GetParamValueIsSafeGetValue | export_letterhead/patches.py:42-65 | `_get_param_value` is `_safe_get_value` with the default in place of `None` |
| Patches.GetParamValueFallback | export_letterhead/patches.py:42-65 | the default comes back iff the source is falsy or no key holds a present value |
| Patches.Step | export_letterhead/patches.py:89-122 | once raised, nothing changes; registry entries are never replaced; a block that does not raise leaves its key registered; the set of sites is unchanged |
| Patches.StepsWriteOnce | export_letterhead/patches.py:89-122 | over any run, registry entries are never replaced or removed |
| Patches.StepsAfterRaise | export_letterhead/patches.py:89-122 | after an exception the remaining blocks do nothing |
| Patches.StepsRegistered | export_letterhead/patches.py:89-122 | a run that does not raise leaves every key registered |
| Patches.StepsNothingToDo | export_letterhead/patches.py:89-122 | with every key registered, a run changes nothing |
| Patches.FirstRaise | export_letterhead/patches.py:89-122 | a run that raises has a first raising block, after a prefix that does not raise |
| Patches.InstallIdempotent | export_letterhead/patches.py:89-122 | a second install, starting without a pending exception, ends in the same state as the first, even without the guard flag; if the first raised, the second raises at the same block |
| Patches.InstallFreshShape | export_letterhead/patches.py:89-122 | on a host that offers every site, the first blocks do not raise, register exactly their own keys and leave the later sites bound as before |
| Patches.InstallFreshPrefix | export_letterhead/patches.py:89-122 | on a host that offers every site, each block saves the host's function under its key and binds the wrapper |
| Patches.StepsOtherSites | export_letterhead/patches.py:89-122 | a run rebinds only the sites of its own blocks; every other binding is unchanged |
| Patches.InstallFresh | export_letterhead/patches.py:89-122 | the full install saves every host function and binds every wrapper, without raising |
| Patches.InstallStopsAtMissingSite | export_letterhead/patches.py:89-122 | a missing site raises there: earlier patches stay installed and later sites are untouched |
| Patches.PrefixFresh | export_letterhead/patches.py:89-122 | the blocks before a patch with a fresh key leave that key unregistered |
| Patches.PatchTableDistinct | export_letterhead/patches.py:89-122 | the six patches use distinct keys and distinct sites |
| Patches.Installer.constructor | export_letterhead/patches.py:39 | the registry starts empty and the guard is unset |
| Patches.Installer.PatchOne | export_letterhead/patches.py:89-92 | one block changes the registry and bindings exactly as `Step` |
| Patches.Installer.ApplyPatches | export_letterhead/patches.py:68-122 | the guard is set; a second call changes nothing; a first call changes the state exactly as the six blocks in order |
| Patches.Installer.RunBlocks | export_letterhead/patches.py:89-122 | running the blocks in order, stopping at the first raise, changes the state exactly as `Steps` |
| Patches.Installer.BootSession | export_letterhead/patches.py:509-524 | returns `bootinfo` after applying the patches, or raises what the install raised |
| Patches.ChosenContext | export_letterhead/patches.py:154-160 | a non-empty override is used as it is; otherwise a freshly built context with the documented keys |
| Patches.ChosenContextSeed | export_letterhead/patches.py:154-160 | without an override, the call's own name becomes both the doctype and the report name |
| Patches.PreparedData | export_letterhead/patches.py:148-167 | with the feature off the data passes through unchanged; otherwise the data is a suffix of the result; an exception comes only from a failed company lookup |
| Patches.PreparedDataLayout | export_letterhead/patches.py:162-167 | with the feature on, the data follows the letterhead rows directly, after their `[""]` separator |
| Patches.MakeXlsxDisabled | export_letterhead/patches.py:125-182 | with the feature off, `make_xlsx` behaves exactly as the host's own |
| Patches.MakeXlsxResult | export_letterhead/patches.py:125-182 | a failure preparing the data is an exception of the wrapper; with the feature on, a returned file is at position 0 |
| Patches.MakeXlsxStyled | export_letterhead/patches.py:125-182 | with the feature on, the original builds from letterhead plus data; its exception propagates; a readable result has every non-failing row in the configured font, at position 0 |
| Patches.CsvSeed | export_letterhead/patches.py:384-389 | the seed name is truthy; it is `csv_params["doctype"]` when the parameters are a dict holding a truthy one, and "Export" otherwise |
| Patches.Exporter.constructor | export_letterhead/patches.py:154 | a request starts with no override |
| Patches.Exporter.Prepare | export_letterhead/patches.py:148-173 | the data handed on is `PreparedData`; the override is cleared once the rows were generated and kept when the feature is off or generation raised |
| Patches.Exporter.MakeXlsx | export_letterhead/patches.py:125-182 | the result is `MakeXlsxResult` and the override follows `Prepare` |
| Patches.Exporter.BuildXlsxResponse | export_letterhead/patches.py:289-316 | the original gets the prepared data and the filename; the override follows `Prepare` |
| Patches.Exporter.BuildCsvResponse | export_letterhead/patches.py:319-357 | the original gets the prepared data and the filename; the override follows `Prepare` |
| Patches.Exporter.GetCsvBytes | export_letterhead/patches.py:360-403 | the original gets the data prepared under the CSV seed name; the override follows `Prepare` |
| Patches.Exporter.ExportQuery | export_letterhead/patches.py:406-462 | the original sees the report's context as the override; the override is cleared afterwards whatever the result |
| Patches.Exporter.ExportQueryReportview | export_letterhead/patches.py:465-506 | the original sees the doctype's context, or the previous override when the form names no doctype; the override is cleared afterwards |
| Patches.ReportNameOf | export_letterhead/patches.py:433-437 | the report name is truthy: the form's own name when that is truthy, else the request form's name when that is truthy, else "Query Report" |
| Patches.QueryContext | export_letterhead/patches.py:446-452 | the override built for a query report has the documented keys |
| Patches.QueryContextNames | export_letterhead/patches.py:433-454 | the override names the report; its doctype is the report's reference doctype, or the report name when there is none |
| Patches.ReportviewOverride | export_letterhead/patches.py:490-496 | the override is the previous one, or a freshly built context with the documented keys |
| Patches.ReportviewOverrideNames | export_letterhead/patches.py:490-496 | a form with a doctype yields that doctype and the form's label (or the doctype); a form without one keeps the previous override |

## Left out

- Python values other than `None`, `str`, `int` and `bool` are left out (floats, dates, objects), and so is `str()` of anything else. Clock readings are opaque strings.
- `\w` in the font-name filter is read as ASCII letters, digits and underscore. Python's Unicode `\w` is not modelled.
- Text.ParseInt: does not accept underscores between digits or non-ASCII digits, both of which Python's `int()` accepts.
- The `frappe` module object that both context builders put under the key `"frappe"` is left out of the context.
- `_render_template` (utils.py:193-221) is a parameter of the model (`Utils.Renderer`). It is a function that never raises, so its Jinja and host-renderer fallbacks are not modelled.
- `now_datetime()` is called three times at utils.py:284-286. The model reads the clock once.
- openpyxl and the file bytes are left out. A file is its active sheet and read position, or `None` when it cannot be loaded.
- Sheet.Worksheet.ApplyFont: a row whose update raises is modelled as raising before any of its fonts change. A row that fails part-way is not modelled. The `if cell:` test is read as always true for openpyxl cells. The blank cells `ws[r]` creates in a shorter row are added when the sheet is loaded, so a failing row also carries them, unstyled; openpyxl would not create them for that row. A sheet with no cell at all has no rows here, while openpyxl reports `max_row` 1 and styles a created cell A1.
- The `wb` and `column_widths` arguments of `make_xlsx` are passed through unchanged and are folded into the original function parameter. So is the `populate_response` handling of the report-level originals.
- The host's original functions are parameters of the wrappers. That they are looked up in the registry at call time, which raises `KeyError` when the key is missing, is not modelled.
- The `frappe.get_doc` lookup of a report's `ref_doctype` is a parameter. `None` stands for a lookup that raises or finds no attribute.
- The report-level wrappers swallow exceptions from `_build_context` in a `try`/`except`. In the model nothing there raises, so that path is empty.
- The import-time `try`/`except` around `apply_patches()` in `__init__.py` is not part of this model. `Patches.Installer.ApplyPatches` reports a raise as its result.
- Logging is left out.
- The settings test case (a test file that checks nothing) is left out.
- `__init__.py:4-9` swallows any exception from `apply_patches()` at import. `apply_patches` itself raises when a host module or attribute is missing (patches.py:89-122). It sets its guard first (patches.py:85-87), so the later patches are never applied. The model follows `apply_patches` (`Patches.InstallStopsAtMissingSite`).
- The company lookup is guarded in `_build_context` (utils.py:171-174) but not in `_generate_letterhead_rows` (utils.py:287), and the data wrappers (patches.py:148-173) do not catch it either. Its exception leaves the data wrapper, and the override stays set. The model follows the code (`Patches.PreparedData`, `Patches.Exporter.Prepare`).
