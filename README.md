# Environment prerequisite checker, modelled in Dafny

`check_prerequisits.py` tells someone preparing to run the workshop's plotting
samples whether their environment is ready. It checks the interpreter version
and then tries to import numpy, scipy, netcdf4-python, matplotlib and basemap.
Each check yields a two-element list `[errors, warnings]`. The `__main__` block
adds the six lists element-wise with `element_sum`, starting from `[0, 0]`, and
prints the totals.

`check_prerequisites.dfy` (module `CheckPrerequisites`) models this:

- `ElementSum` is `element_sum`. Its length `assert` is an error path: the
  `AssertionError` case of `Result`.
- `ClassifyVersion`, `VersionVerdict` and `CheckVersion` are the decision in
  `check_version`: which branch runs, which message it prints and which counts
  it returns.
- `Capability`, `CheckCapability`, `StatusWord`, `LJust` and `ProgressLine`
  cover the five `check_*` functions. They give each check's label, whether the
  library is required, the counts returned on success or failure, and the
  padded progress line.
- `Environment` holds the inputs: major and minor version, plus the set of
  libraries whose import succeeds. `CheckResults` lists the six results in run
  order. `RunChecks` is the `__main__` block with its six reassignments. `Fold`
  and `Column` are its two reference definitions: a left fold of `ElementSum`,
  and column-wise sums.

The version policy follows the code rather than a "newer major / older major"
reading of it. Only major 3 (warning) and major 1 (error) are special. Every
other major, 4 or 0 included, goes on to the `minor != 7` test. So `(4, 7)`
reports neither error nor warning.

## Model

| member | source | states |
|---|---|---|
| `CheckPrerequisites.ElementSum` | check_prerequisits.py:23-34 | succeeds exactly when the lengths match (otherwise the assertion error); the result has that length and element i is a[i] + b[i] |
| `CheckPrerequisites.ElementSumExample` | check_prerequisits.py:30-31 | the documented example: [0,1,2] and [2,3,4] sum to [2,4,6] |
| `CheckPrerequisites.ElementSumZeroIdentity` | check_prerequisits.py:108-109 | adding any pair to the starting total [0,0] gives that pair back |
| `CheckPrerequisites.ElementSumCommutes` | check_prerequisits.py:33-34 | element_sum(a, b) and element_sum(b, a) agree, including on the error case |
| `CheckPrerequisites.ElementSumAssociates` | check_prerequisits.py:33-34 | on lists of one length, (a + b) + c and a + (b + c) element-wise are the same list |
| `CheckPrerequisites.CheckVersion` | check_prerequisits.py:37-50 | the policy table: [1,0] iff major is 1; [0,1] iff major is 3, or major is not 1 and minor is not 7; [0,0] iff major is neither 1 nor 3 and minor is 7; always non-negative with at most one unit |
| `CheckPrerequisites.VersionMessageAgrees` | check_prerequisits.py:40-50 | the "you are fine here" message is printed exactly when the version check returns [0,0] |
| `CheckPrerequisites.Spaces` | check_prerequisits.py:53 | n characters, all spaces (the padding ljust appends) |
| `CheckPrerequisites.LJust` | check_prerequisits.py:53 | s.ljust(w) has length max(len(s), w), starts with s, and is spaces after s |
| `CheckPrerequisites.CheckCapability` | check_prerequisits.py:52-104 | [0,0] when the import succeeds; [1,0] when a required library (numpy, scipy, matplotlib, basemap) fails; [0,1] when the optional netcdf4-python fails; never more than one unit |
| `CheckPrerequisites.ProgressLine` | check_prerequisits.py:52-60 | the label, then spaces up to column 32, then "success" or "fail" starting at column 32 on the same line |
| `CheckPrerequisites.CheckResults` | check_prerequisits.py:108-114 | exactly six results, in run order, each a valid check result (non-negative, at most one unit) |
| `CheckPrerequisites.FoldSucceeds` | check_prerequisits.py:106-114 | folding element_sum over a list of results raises no assertion error exactly when every result has the accumulator's length |
| `CheckPrerequisites.FoldIsColumnSum` | check_prerequisits.py:108-114 | on pairs, the left fold of element_sum from acc equals acc plus the column-wise sums of the results |
| `CheckPrerequisites.FoldOrderIrrelevant` | check_prerequisits.py:108-114 | folding element_sum from [0,0] over any reordering of a list of pairs gives the same total |
| `CheckPrerequisites.RunChecks` | check_prerequisits.py:106-116 | the __main__ block's total equals the left fold of element_sum from [0,0] over the six results in order (which never raises), and equals [total errors, total warnings] |
| `CheckPrerequisites.ReportClosedForm` | check_prerequisits.py:37-114 | total errors = (1 if major is 1) + number of missing required libraries; total warnings = (1 if the version check warns) + (1 if netcdf4-python is missing) |
| `CheckPrerequisites.ReportBounds` | check_prerequisits.py:106-116 | errors are between 0 and 5, warnings between 0 and 2, and their sum is at most 6 |
| `CheckPrerequisites.CleanReport` | check_prerequisits.py:37-114 | the report is [0,0] exactly when major is neither 1 nor 3, minor is 7, and all five libraries import |
| `CheckPrerequisites.NothingInstalled` | check_prerequisits.py:37-116 | with version 2.7 and no library importable: 4 errors and 1 warning |
| `CheckPrerequisites.OnlyNumpyMissing` | check_prerequisits.py:37-116 | with version 2.7 and only numpy missing: 1 error and 0 warnings |
| `CheckPrerequisites.OnlyNetcdf4Missing` | check_prerequisits.py:37-116 | with version 2.7 and only netcdf4-python missing: 0 errors and 1 warning |

## Left out

- Printing (`print`, `print_no_linefeed`, `sys.stdout.write`) is not modelled as I/O. The model keeps only the choice of version message (`VersionVerdict.Message`) and the text of each progress line (`ProgressLine`).
- The "Python version X.Y.Z found" line and the final "Check finished with E errors and W warnings" line are not modelled: they only format integers into text.
- The explanatory netcdf4-python note (lines 78-81) is not modelled: it is fixed text with no effect on the counts.
- Import attempts and `except ImportError` are inputs: `Environment.installed` is the set of libraries whose import succeeds. Python's module loader is not modelled, and neither is any exception other than `ImportError`.
- Reading `sys.version_info` is replaced by the `major` and `minor` inputs. `micro` only appears in a printed message.
- The `major` and `minor` inputs range over all integers, including versions the script cannot report. Lines 5-7 read `sys.version_info.major` and `.minor`, attributes that exist only from Python 2.7 and 3.1 on. On a real interpreter, `AncientMajor`, `(2, minor other than 7)` and `(3, 0)` therefore cannot occur. The proved properties hold for every input.
- ElementSum: assumes Python assertions are enabled. Under `python -O` the length guard at line 33 is removed: `element_sum([1, 2], [1])` then raises IndexError and `element_sum([1], [1, 2])` returns `[2]`. The checker itself only ever passes pairs.
- ElementSum: models lists of integers, because the checker only ever adds integer counts. Lists of floats, which `element_sum`'s documentation also allows, are not modelled.
- The sample plotting scripts under `samples/` are not modelled. They are netCDF reading, numpy array numerics and matplotlib/basemap rendering over floating-point data, with no self-contained logic. This includes the Jacobi relaxation in `samples/laplace.py`.
