# Goldene elasticity: strain toolkit and elastic-constant extraction

This project models, in Dafny, the computational core of a small pipeline that derives
elastic constants of a two-dimensional gold sheet (goldene) from strain–energy data:

- `src/utils.py`: the in-plane orthogonality check of a 3×3 lattice matrix, the strain
  series `np.arange(-M, M + step, step)`, the quadratic energy model `a·x² + b`, and the
  two lattice deformers that left-multiply the cell by `I + E` for a single-axis strain
  tensor or for the combined xy tensor;
- `compute_elastic_constants.py`: the arithmetic after the quadratic fit (`A / V` for the
  x and y axes, `(A / V − C11 − C22) / 2` for any other axis, with C11 and C22 fixed in the
  script), the `AXIS ∈ {0, 1, 10}` check, the cell volume `ax·ay·d0` and the axis label.

Files:

- `errors.dfy` (module `Errors`): the error conditions and a `Result` type that carries
  them in place of Python exceptions.
- `matrices.dfy` (module `Matrices`): the numpy operations the deformers rely on —
  dot product, columns, `np.eye(3)`, element-wise sum and matrix product — over
  `seq<seq<real>>`.
- `utils.dfy` (module `Utils`): the functions of `src/utils.py`. The deformers are
  methods that allocate a fresh zeroed `array2<real>`, write the strain entries into it
  in place, and return the product `(I + E)·cell`, as the source does with
  `np.zeros((3, 3))`.
- `elastic_constants.dfy` (module `ElasticConstants`): the post-fit part of
  `compute_elastic_constants.py` and its script body.

Arithmetic is exact (`real`). Where the source and its written description differ, the
model follows the code:

- The orthogonality check compares the first two columns `lattice[:3, 0]` and
  `lattice[:3, 1]`, not the first two rows (see Findings).
- The extractor hard-codes C11 and C22 and does not check the volume. It maps every axis
  value other than 0 and 1 to the xy formula; only the script rejects an AXIS outside
  {0, 1, 10}.
- The strain series has `max(0, ⌈(2M + step)/step⌉)` values, the length of `np.arange`.
  With `step > 0` this is `⌈2M/step⌉ + 1`.

## Model

| member | source | states |
|---|---|---|
| `Utils.CheckXyOrthogonality` | src/utils.py:3-26 | the tolerance defaults to 1e-4; fails with the not-3×3 error exactly when the input is not a 3×3 array, and otherwise answers a boolean |
| `Utils.OrthogonalityIff` | src/utils.py:21-26 | on a 3×3 lattice the check answers true exactly when the absolute value of the sum over i of L[i][0]·L[i][1] (first two columns) is strictly below tol |
| `Utils.DiagonalIsOrthogonal` | src/utils.py:21-26 | every diagonal 3×3 lattice passes the check for every positive tolerance |
| `Utils.ColumnCheckDisagreesWithRows` | src/utils.py:21-24 | the column check rejects a cell whose lattice vectors (1,1,0) and (2,−2,0) are orthogonal, and accepts one whose vectors (1,0,1) and (0,1,1) are not |
| `Utils.CheckXyRowOrthogonality` | src/utils.py:3-26 | corrected check over the first two rows (the lattice vectors): fails exactly when the input is not 3×3 |
| `Utils.UniaxialStrainKeepsRowsOrthogonal` | src/utils.py:111-121 | a cell with orthogonal in-plane lattice vectors keeps them orthogonal under single-axis strain on any axis, and the row check still answers true |
| `Utils.ArangeBelowStop` | src/utils.py:50 | about `Utils.Arange`, the model of `np.arange` (value i is start + i·step): with a positive step it yields exactly the terms of the progression from start that lie below stop: all values are below stop and the next term is not |
| `Utils.GenerateStrainList` | src/utils.py:28-50 | M and step default to 0.1 and 0.01; the warning is raised exactly when M > 0.2, in every outcome; negative M fails; a zero step fails; otherwise a list is returned, including for M > 0.2 |
| `Utils.StrainListShape` | src/utils.py:50 | for M ≥ 0 and step > 0: ⌈(2M+step)/step⌉ = ⌈2M/step⌉+1 values, value i is −M + i·step, strictly ascending, first −M, every value below M + step, last value at least M |
| `Utils.StrainListSymmetric` | src/utils.py:50 | when 2M is k whole steps the list has k+1 values and value k−i is the negation of value i |
| `Utils.DefaultSeries` | src/utils.py:28-50 | the default call (M = 0.1, step = 0.01) gives no warning and the 21 values −0.1 + i·0.01, from −0.1 through 0 to 0.1, symmetric about zero |
| `Utils.DefaultToleranceAcceptsGoldeneCell` | src/utils.py:3-26 | with the default tolerance the check accepts the rectangular goldene cell diag(2.758, 4.713, 3.45) |
| `Utils.EightPercentSeries` | src/utils.py:28-50 | M = 0.08, step = 0.01 gives no warning and exactly the 17 values −0.08, −0.07, …, 0.08 |
| `Utils.QuadraticModel` | src/utils.py:52-64 | about `Utils.Func`, the model of func (a·x² + b): func(0, a, b) = b, func(−x, a, b) = func(x, a, b), and zero strain is the minimum for a ≥ 0 and the maximum for a ≤ 0 |
| `Utils.EnergiesOverSymmetricSeries` | src/utils.py:50-64 | over a symmetric strain series the quadratic model gives equal energies at mirrored strains |
| `Utils.Deformation1DEntries` | src/utils.py:114-119 | I + E for single-axis strain has 1 + s at [axis, axis], 1 elsewhere on the diagonal and 0 off it |
| `Utils.Deformed1DRows` | src/utils.py:114-121 | single-axis strain scales lattice vector `axis` by 1 + s and leaves the other two rows unchanged; the width is preserved |
| `Utils.DeformedXyRows` | src/utils.py:141-151 | xy strain gives rows (1+s)·a + (s/2)·b, (s/2)·a + (1+s)·b and c for input rows a, b, c |
| `Utils.DeformationsSymmetric` | src/utils.py:143-149 | both deformation matrices I + E are symmetric |
| `Utils.ZeroStrainIsIdentity` | src/utils.py:114-121 | at zero strain both deformers return the input cell |
| `Utils.Apply1DStrain` | src/utils.py:95-121 | the axis defaults to 0; an axis outside {0,1,2} fails; a cell without three rows fails in the product; otherwise the result is (I + E)·cell with row `axis` scaled by 1 + s, the others unchanged, and the input itself at s = 0 |
| `Utils.ApplyXyStrain` | src/utils.py:138-151 | a non-3×3 cell fails; otherwise the result is (I + E)·cell with the row-wise xy formulas, and the input itself at s = 0 |
| `Matrices.MatMul3Row` | src/utils.py:121 | row i of np.dot(D, cell) is D[i][0]·cell[0] + D[i][1]·cell[1] + D[i][2]·cell[2] |
| `ElasticConstants.ComputeElasticConstant` | compute_elastic_constants.py:9-20 | the fit parameters come back unchanged; for axis 0 or 1 the constant C satisfies C·V = A; for any other axis (2C + C11 + C22)·V = A |
| `ElasticConstants.ExtractorInverse` | compute_elastic_constants.py:15-18 | the extractor reports a given constant exactly when A is the curvature that constant requires (both directions) |
| `ElasticConstants.Volume` | compute_elastic_constants.py:24-25 | ax·ay·d0 is positive for positive lattice parameters |
| `ElasticConstants.AxisLabel` | compute_elastic_constants.py:38-43 | "x" exactly for 0, "y" exactly for 1, "xy" exactly for every other value |
| `ElasticConstants.RunScript` | compute_elastic_constants.py:27-43 | fails with the axis-selector error exactly when AXIS is outside {0, 1, 10}; otherwise reports the fit unchanged under the axis label |
| `ElasticConstants.ScriptReport` | compute_elastic_constants.py:28-43 | for every accepted AXIS the volume is positive and the label agrees with the formula: "x" and "y" with A/V, "xy" with (A/V − C11 − C22)/2 |
| `ElasticConstants.ConfiguredScript` | compute_elastic_constants.py:27-29 | the configured AXIS = 1 passes the check and is reported as "y" |

## Left out

- The quadratic least-squares fit (`curve_fit` in `compute_elastic_constant`): a foreign nonlinear solver over floats. The fitted parameters (A, B) are an input of the extractor.
- `save_strain_energy_values`: CSV output through `np.savetxt`, with its IOError swallowed by a print.
- `compute_starin_energy_variations.py`: reads the structure, raises when the reader returns nothing, calls the orthogonality check on the cell and aborts when it answers false (`:14-24`), checks its own AXIS against {0, 1, 10} (`:32-33`), and for each strain of `generate_strain_list(0.08, 0.01)` replicates a 10×5×1 supercell, applies `apply_1d_strain` for AXIS 0 or 1 and `apply_xy_strain` otherwise (`:42-45`), asks the tight-binding calculator for the energy and saves the pairs to CSV. It is orchestration around an external energy calculator. Its one call of the check passes `goldene_puc.get_cell()` (`:18-20`), an ASE cell object whose type, and whether it passes the check's `isinstance` test, the model does not capture.
- `sandbox/potential_energy_vs_length.py`: uses none of the modelled functions. It computes the potential energy per atom (energy divided by the atom count, `:32`) of supercells 2n×n×1 for n = 1…9 and plots it against the length n·4.718 Å. The energy comes from an external calculator.
- `sandbox/potential_energy_vs_interlayer_distance.py`: uses none of the modelled functions. It builds a two-atom gold cell with the second atom at each of nine interlayer distances, replicates it 10×10×1, and plots the calculator's energy against the distance. The energy comes from an external calculator.
- `read_data`, `quadratic_function` and `plot_fit`: imported by `compute_elastic_constants.py` but not defined in `src/utils.py`. They are not part of this model.
- Printing: the large-strain warning is a `warned` flag of the result, and the script's output is a `Report` value.
- IEEE-754 rounding: `np.arange` over floats can gain or lose an endpoint, and `0.08`, `0.01` and the constants are not exact binary values. The model uses exact reals.
- The `isinstance(…, np.ndarray)` tests: a non-array argument (a Python list, or the ASE cell object passed at `compute_starin_energy_variations.py:18-20`) is not modelled. Matrices are arrays by construction, and `Apply1DStrain` requires a rectangular cell, as every numpy array is.
- Apply1DStrain: a one-dimensional cell of length 3, which `np.dot` also accepts, is not modelled; only two-dimensional cells with three rows are.
- ComputeElasticConstant: requires a nonzero volume, because numpy float division by zero gives an infinity or NaN that reals cannot represent. The script's own volume is proved positive.
- QuadraticModel: `float()` conversions of integer arguments are not modelled; arguments are reals.

## Findings

| source | as written | input that shows it | evidently intended | confidence | as-written member | corrected member |
|---|---|---|---|---|---|---|
| src/utils.py:21-24 | the check takes the first two columns `lattice[:3, 0]` and `lattice[:3, 1]`, while the cell's lattice vectors are its rows | the cell with rows (1,1,0), (2,−2,0), (0,0,1): its in-plane lattice vectors are orthogonal, but the column dot product is −3 and the check answers false; rows (1,0,1), (0,1,1), (0,0,1) are not orthogonal, yet the check answers true | the dot product of the first two rows, the in-plane lattice vectors | medium; not executed | `Utils.ColumnCheckDisagreesWithRows` | `Utils.CheckXyRowOrthogonality` |

The corrected check is proved to keep answering true for an orthogonal cell under any
single-axis strain (`Utils.UniaxialStrainKeepsRowsOrthogonal`). Everything else in the
model follows the code.
