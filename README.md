# Quantum circuit benchmark generators, modelled in Dafny

The repository is a collection of near-duplicate benchmark scripts, one per
simulator (Qrack in C++, PyQrack, Qiskit, Cirq, pyQuil, qcgpu, ProjectQ).
Each script builds a circuit as an ordered list of gate instructions and
times it over a sweep of widths, depths and samples, appending one CSV row
per trial. This project models the logic the scripts share, with the
simulators themselves left out:

- **Gates** (`gates.dfy`) has the instruction type. Gates are an enum, and
  angles and matrices are opaque tags. It also has well-formedness (operands
  in range and distinct), the draw oracle, and how a circuit ends: with no
  measurement, with `measure(j, j)` per qubit, or with one measure-all.
- **Grid** (`grid.dfy`) has the near-square factorisation and its loop. It
  also has the true-division variant, the two partner conventions
  (simple, parity-start) and the "transpose" remap.
- **Tiling** (`tiling.dfy`) has the 8-entry pattern list rotated once per
  layer, and the row/column coupling scan. The scan is a function with a
  soundness and a completeness lemma, plus the loop methods that compute it.
- **Singles** (`singles.dfy`) has the per-qubit single-qubit passes:
  - the Python resample-until-different choice;
  - the C++ erase-and-advance choice over three gates;
  - the inverse-recording choice over four gates;
  - fixed sequences, and the T-count-limited phase part.
- **GridCircuits** and **GridFiles** (`gridcircuits.dfy`, `gridfiles.dfy`)
  hold one layer engine over a `Variant` record. Each nearest-neighbour or
  Sycamore script is one variant constant plus one generator method.
- **Pools** (`pools.dfy`) has `pickRandomBit` on the `unusedBits` set, a
  class whose `bits` field is updated in place, and Python's `list.remove`.
- **RandomCircuits** and **RandomFiles** (`randomcircuits.dfy`,
  `randomfiles.dfy`) hold the random-universal-circuit engine. Its grouping
  loop draws disjoint pairs and triples until at most one qubit (two for the
  Toffoli script) remains. Each random script is one variant plus one method.
- **Basis** (`basis.dfy`) has `rand_perm`, preparing that basis state with X
  gates, and packing measurement bits into an integer.
- **Mirror** (`mirror.dfy`) has the record-and-replay validation bench.
- **Qft** (`qft.dfy`) has the Fourier transforms:
  - the loop form (Cirq);
  - the recursive form (pyQuil);
  - the classically-controlled one-qubit form (Qiskit);
  - the measure-and-correct form (PyQrack, qcgpu), and its bit packing.
- **Sweep** and **Harnesses** (`sweep.dfy`, `harnesses.dfy`) model the
  width × depth × sample loop and how each script handles a failed trial. A
  failure either propagates, is written as a `'failure'` time (only when the
  final measurement raises, the one call pyqrack_sycamore.py's bench wraps in
  a try), or is written as a `-999` row followed by a new simulator. They also model the simulator
  lifetime, the append-mode CSV whose header is written only when the file
  is new, and the progress fraction, whose division by zero under
  `--depth 0` ends a sweep over a fixed depth list before its first trial.
- **Distance** (`distance.dfy`) has the histogram of hex sample keys,
  `dict_diff`, and the 1200 tolerance test.

Random draws are an oracle (`Source`) indexed by the position of the draw in
the loop nest. Python's `random.choice` becomes an index modulo the number of
options, and Qrack's `Rand()` becomes a real in [0, 1]. The resample loops,
which end only with probability 1, become their outcome: some option other
than the excluded one.

## Model

| member | source | states |
|---|---|---|
| Gates.MeasureEach | cirq_qft.py:20-21 | the final part measures qubit j into classical bit j, for each j in index order, and holds nothing else |
| Gates.Choice | pyqrack_dense.py:85 | `random.choice` returns one of the offered options |
| Gates.IndexOf | pyqrack_random_circuit.py:58 | `tuple.index(x)`: None (the `ValueError`) exactly when x is absent, otherwise the first position holding x |
| Gates.Reverse | pyqrack_random_circuit_validation.py:95 | `list.reverse()`: position k holds the element that was at position len-1-k |
| Gates.Assembled | pyqrack/pyqrack_sycamore.py:21-76 | optional `reset_all`, then gates, then the final measurements: every instruction's operands are in range and distinct, nothing is measured before the final part, and the reset comes first |
| Gates.EndsWith | qiskit_sycamore.py:70-71 | what the circuit's last instructions are for each ending: nothing, `measure(j, j)` for every j, or one measure-all over the register |
| Gates.FinalWellFormed | qrack/qrack_sycamore.cpp:157 | every final measurement part is well formed on n qubits |
| Grid.FloorSqrt | qrack/qrack_sycamore.cpp:25 | the integer square root: r² ≤ n < (r+1)², and r ≥ 1 when n ≥ 1 |
| Grid.LargestDivisorFromIsLargest | qrack/qrack_sycamore.cpp:25-29 | counting down from c ≥ 1 stops at a divisor of n, and no larger value up to c divides n |
| Grid.NearSquare | qrack/qrack_sycamore.cpp:25-29 | the small side lies in [1, ⌊√n⌋] |
| Grid.NearSquareCorrect | qrack/qrack_sycamore.cpp:25-29 | colLen is the largest divisor of n not above ⌊√n⌋, rowLen·colLen == n, and colLen ≤ rowLen |
| Grid.Factor | qrack_sycamore.cpp:30-34 | the decrement loop ends with the near-square factorisation, proved with loop invariants |
| Grid.DivisionTest | qrack_universal_nearest_neighbor.cpp:24-28 | the integer test `(n / c) * c == n` holds exactly when c divides n |
| Grid.TrueDivisionNeverMismatches | cirq/cirq_sycamore.py:27-30 | in exact rational arithmetic the loop test `(n / c) * c != n` is never true; Python evaluates it in doubles, where it can hold (see Left out) |
| Grid.TrueDivisionFactor | cirq/cirq_sycamore.py:27-30 | the factor pair of the true-division loop read in exact arithmetic: colLen = ⌊√n⌋ and rowLen = n // colLen, so only rowLen·colLen ≤ n < colLen·(rowLen+1) holds |
| Grid.TrueDivisionLosesQubits | cirq/cirq_sycamore.py:27-30 | n = 7 gives a 2 × 3 grid that leaves qubit 6 out, while the exact factorisation is 1 × 7 |
| Grid.SimplePartner | qrack/qrack_sycamore.cpp:131-132 | the partner row is row+1 exactly when `gate & 2`, and row−1 otherwise; the column gains 1 exactly when colLen ≠ 1 and `gate & 1` |
| Grid.RowStart | qrack_sycamore.cpp:23-27 | rows start at 1 for patterns 0 and 1, and at 0 for patterns 2 and 3 |
| Grid.ParityPartner | qrack_sycamore.cpp:90-99 | the partner is a different cell in an adjacent row, the row below exactly when `gate & 2` is set; even-start patterns never look right and odd-start patterns never look left; the column stays exactly when `gate & 1` agrees with the start parity |
| Grid.TransposeInjective | qrack_sycamore.cpp:108-115 | the corrected remap, with the transposed grid's own stride, never sends two cells to one index |
| Grid.TransposeInRange | qrack_sycamore.cpp:108-115 | the corrected remap maps [0, rows·cols) into itself |
| Grid.TransposeRoundTrip | qrack_sycamore.cpp:108-115 | transposing twice with the two strides gives every index back |
| Grid.TransposeAsWrittenOnSquare | qrack_sycamore.cpp:108-115 | on a square grid the remap as written agrees with the corrected one |
| Grid.TransposeAsWrittenCollides | qrack_sycamore.cpp:108-115 | as written, rowLen 6 sends both 1 and 36 to 6 |
| Grid.TransposeSeparates | qrack_sycamore.cpp:108-115 | the corrected remap sends 1 to 9 and 36 to 6 on the 6 × 9 grid |
| Tiling.PatternsWellFormed | qrack/qrack_sycamore.cpp:22 | both 8-entry pattern lists hold values below 4 |
| Tiling.Rotate | pyqrack/pyqrack_sycamore.py:50-52 | pop-front then push-back keeps the length and puts the old head last |
| Tiling.RotateByIndex | qrack/qrack_sycamore.cpp:115-117 | after k rotations, position i holds the element at (i + k) mod the list length |
| Tiling.RotateByHead | qrack/qrack_sycamore.cpp:115-117 | the pattern of layer d is the list's element d mod 8 |
| Tiling.RotatePeriod | qrack/qrack_sycamore.cpp:115-117 | after 8 rotations the list is back in its initial order |
| Tiling.CouplersSound | qrack/qrack_sycamore.cpp:119-139 | every emitted pair comes from a scanned cell (from the start row, every second row) whose partner lies in the grid, with b1 = row·colLen+col and b2 the partner's index |
| Tiling.CouplersComplete | qrack/qrack_sycamore.cpp:119-139 | every scanned cell whose partner lies inside the grid yields a pair |
| Tiling.RowCouplersSound | qrack/qrack_sycamore.cpp:120-139 | the pairs of one row are couplers of that row at or after the starting column |
| Tiling.ScanFromSound | qrack/qrack_sycamore.cpp:119-139 | the pairs from a start row on are couplers of rows at or below it |
| Tiling.RowCouplersComplete | qrack/qrack_sycamore.cpp:120-139 | every in-grid column of a row from the starting column on yields a pair |
| Tiling.ScanFromComplete | qrack/qrack_sycamore.cpp:119-139 | every scanned row at the right parity from the start on contributes its in-grid cells |
| Tiling.CouplerInRange | qrack/qrack_sycamore.cpp:138-139 | a pair's b1 and b2 lie in [0, rows·cols) and differ |
| Tiling.CouplersInRange | qrack/qrack_sycamore.cpp:138-139 | every pair of a layer is in range and has distinct qubits |
| Tiling.ScanCouplers | qrack/qrack_sycamore.cpp:119-139 | the nested row/column loop emits exactly the pairs of the scan specification |
| Tiling.ScanRow | qrack/qrack_sycamore.cpp:120-139 | the column loop of one row appends that row's pairs |
| Tiling.ScanCell | qrack/qrack_sycamore.cpp:121-139 | one cell appends its pair exactly when the partner lies in the grid |
| Tiling.MovePartner | qrack_sycamore.cpp:90-99 | the tempRow/tempCol updates compute the convention's partner cell |
| Tiling.ParityAsWrittenSelfPair | qrack_sycamore.cpp:101-106 | with rowLen 1 and n ≥ 2, pattern 1 at cell (1, 0) passes the swapped-axis skip test and gives b1 == b2 == 1, while the corrected scan emits nothing there |
| Tiling.ParityAsWrittenWrapPair | qrack_sycamore.cpp:101-106 | at n = 6 (rowLen 2, three rows of two), pattern 1 at cell (1, 1) has its partner outside the grid, yet the written skip test yields (b1, b2) = (3, 2) in the scanned grid; the corrected scan emits nothing there. In cirq_sycamore.py:57, which has no transpose, that is qubit 3 coupled with qubit 2 |
| Tiling.ParityAsWrittenDropsPair | qrack_sycamore.cpp:101-106 | at n = 8 (rowLen 2, four rows of two), pattern 0 at cell (3, 0) has its partner at row 2 inside the grid, yet the written test skips it; the corrected scan couples qubits 6 and 4 (the same test in cirq_sycamore.py:57) |
| Tiling.ParityAsWrittenOnSquare | qrack_sycamore.cpp:81-103 | on a square grid the swapped axes of the loop bounds and the skip test make no difference |
| Singles.Choices | qrack/qrack_sycamore.cpp:83-88 | the ordered choice set holds k indices, exactly those below k, in strictly increasing order |
| Singles.ChoicesAt | qrack/qrack_sycamore.cpp:83-88 | the choice set's i-th element is i |
| Singles.Without | qrack/qrack_sycamore.cpp:83-86 | erasing `last` from the set leaves k−1 choices, each below k and none equal to `last`, still in increasing order |
| Singles.WithoutIsErase | qrack/qrack_sycamore.cpp:83-86 | that list is the ordered choice set with the element at position `last` cut out, as `advance` then `erase` does |
| Singles.WithoutMembers | qrack/qrack_sycamore.cpp:83-88 | erasing the last choice leaves exactly the other choices, in order |
| Singles.PickOther | cirq/cirq_sycamore.py:36-45 | the outcome of resampling until different is an index below k other than the previous one |
| Singles.PickOtherReachesAll | cirq/cirq_sycamore.py:36-45 | every index other than the previous one is some draw's outcome |
| Singles.Bucket | qrack/qrack_sycamore.cpp:64-78 | the first-layer thresholds pick the index i with i/k ≤ r < (i+1)/k, or the last index at r = 1 |
| Singles.EraseThreeAsWritten | qrack/qrack_sycamore.cpp:83-94 | as written, the advance `(int)(gateRand*2)` after truncation is past the end of the two-element set (None) exactly when r ≥ 0.5; otherwise the first remaining gate |
| Singles.EraseThree | qrack/qrack_sycamore.cpp:83-94 | the corrected choice is one of the two remaining gates, never the last one, and the second exactly when r ≥ 0.5 |
| Singles.EraseThreeReachesAll | qrack/qrack_sycamore.cpp:83-94 | the corrected choice reaches both remaining gates |
| Singles.EraseThreeAsWrittenMissesSecond | qrack/qrack_sycamore.cpp:83-94 | as written, no draw selects the second remaining gate |
| Singles.InverseRecordIsAdjoint | qrack_universal_nearest_neighbor.cpp:58-72 | the recorded index is that of the applied gate's inverse: H→0, X→1, T→3, IT→2 |
| Singles.InverseFourChoice | qrack_universal_nearest_neighbor.cpp:77-88 | the choice is one of the three remaining indices, never the recorded one; at r = 1 it is the smallest remaining index |
| Singles.InverseFourNeverUndoes | qrack_universal_nearest_neighbor.cpp:89-103 | with choice 3 applying IT, the gate of the next layer is never the inverse of this layer's gate |
| Singles.InverseFourAsWrittenUndoes | qrack_universal_nearest_neighbor.cpp:99-102 | as written, record 2 and r = 0.75 give choice 3, which applies T, the inverse of the IT just applied |
| Singles.PhaseFlags | qiskit_qrack_t_nn_d.py:81-95 | at most three gates from {Z, S, S†, T, T†}, and T or T† only when the uniform draw on [0, (n+2)·depth) is below 1 |
| Singles.CliffordPart | qrack/qrack_random_circuit.cpp:39-60 | at most two gates, all from {H, S, S†}, and none exactly in the top quarter of the draw |
| Singles.OtherChoice | cirq/cirq_sycamore.py:36-45 | a valid index, different from the previous layer's choice after the first layer |
| Singles.ThreeChoice | qrack/qrack_sycamore.cpp:64-94 | a valid index, different from the previous record after the first layer |
| Singles.FourChoice | qrack_universal_nearest_neighbor.cpp:58-103 | a valid index, different from the recorded inverse after the first layer |
| Singles.PassStep | qrack/qrack_sycamore.cpp:64-94 | a remembering pass leaves a record below its number of choices |
| Singles.StepNoRepeat | cirq/cirq_sycamore.py:36-45 | the no-repeat passes never give a qubit the gate it had in the previous layer |
| Singles.StepNeverUndoes | qrack_universal_nearest_neighbor.cpp:58-103 | the inverse-recording pass never follows a gate with its inverse |
| Singles.StepAvoidsRecord | qrack/qrack_sycamore.cpp:83-94 | the new record differs from the previous one |
| Singles.StepAvoidsInverse | qrack_universal_nearest_neighbor.cpp:89-103 | the new gate is not the inverse recorded by the previous layer |
| Singles.PassRecords | pyquil_sycamore_approximation.py:51-60 | a pass replaces the record list with one of exactly num_qubits entries |
| Singles.PassPrefixOnQubits | pyquil_sycamore_approximation.py:51-60 | the first j qubits' instructions are single-qubit gates on qubits below j |
| Singles.PassPrefixLength | qrack_random_circuit.cpp:39-50 | when every choice has w gates, the first j qubits get j·w instructions |
| Singles.OneGatePerQubit | pyqrack_nearest_neighbor.py:44-46 | with one-gate choices, a pass gives qubit j exactly one gate, at position j |
| Singles.PassGatesOnly | pyqrack/pyqrack_euler_nn.py:63-73 | a pass emits only well-formed gates on the register, never a measurement |
| Singles.PassQubit | cirq/cirq_sycamore.py:36-45 | the loop body for one qubit appends its gates and sets its record |
| Singles.RunPass | qrack/qrack_sycamore.cpp:64-94 | the per-qubit loop builds the pass and its new `lastSingleBitGates` |
| GridCircuits.TilingOf | qrack/qrack_sycamore.cpp:25-29 | the grid of a script has at least one column |
| GridCircuits.TilingOfFits | cirq/cirq_sycamore.py:27-30 | the grid fits the register, rows·cols ≤ n; it fills the register exactly under integer division |
| GridCircuits.GridOf | qiskit_sycamore.py:27-30 | the factorisation loop computes the script's grid |
| GridCircuits.MicroInstrs | qcgpu_sycamore_approximation.py:28-31 | a gate's decomposition (swap as three CNOTs, anti-controlled as X-conjugated) becomes one instruction per step, on the pair |
| GridCircuits.PairInstrs | qiskit/qiskit_t_nn.py:42-55 | a coupled pair's instructions act only on b1 and b2 |
| GridCircuits.RunPairs | qrack_universal_nearest_neighbor.cpp:127-146 | the pair loop appends each coupled pair's instructions in scan order |
| GridCircuits.LayerRecords | cirq/cirq_sycamore.py:36-45 | a layer leaves one record per qubit |
| GridCircuits.RecordsBefore | qrack/qrack_sycamore.cpp:64-78 | before layer 0 no record exists; from layer 1 on there are n |
| GridCircuits.PatternOf | qrack/qrack_sycamore.cpp:115-117 | the pattern value of layer d is below 4 |
| GridCircuits.RunSingles | qrack/qrack_sycamore.cpp:64-94 | the pass loop of one layer gives its instructions and its records |
| GridCircuits.PairsPartGatesOnly | qrack/qrack_sycamore.cpp:138-146 | pairs inside the grid give well-formed gates only |
| GridCircuits.SinglesGatesOnly | qrack/qrack_sycamore.cpp:64-94 | the single-qubit passes give well-formed gates only |
| GridCircuits.LayerGatesOnly | qrack/qrack_sycamore.cpp:62-147 | a whole layer is well-formed gates only |
| GridCircuits.LayersGatesOnly | qrack/qrack_sycamore.cpp:62-155 | any number of layers is well-formed gates only |
| GridCircuits.CircuitShape | qrack/qrack_sycamore.cpp:16-158 | the circuit is the optional reset, the layers, then the final measurements: well formed, with nothing measured earlier |
| GridCircuits.NoRepeat | cirq/cirq_sycamore.py:36-45 | from the second layer on, qubit j's gate differs from its gate in the previous layer |
| GridCircuits.NeverUndoes | qrack_universal_nearest_neighbor.cpp:58-103 | from the second layer on, qubit j's gate is never the inverse of its previous gate |
| GridCircuits.PairsPartLength | pyquil_sycamore_approximation.py:82-83 | with a fixed decomposition, the pair part has that many instructions per pair |
| GridCircuits.LayerLength | pyquil_sycamore_approximation.py:49-85 | a layer has one gate per qubit plus the pair instructions |
| GridCircuits.RunLayer | qrack/qrack_sycamore.cpp:62-147 | one iteration of the depth loop builds the layer specification and its records |
| GridCircuits.AppendLayer | qrack/qrack_sycamore.cpp:62-155 | appending a layer extends the circuit and the records by exactly that layer |
| GridCircuits.Generate | qrack/qrack_sycamore.cpp:16-158 | the depth loop, with the pattern list rotated each layer, builds the circuit specification |
| GridFiles.SycamoreVariantsValid | qrack/qrack_sycamore.cpp:16-158 | every Sycamore variant constant is valid |
| GridFiles.NearestNeighborVariantsValid | pyqrack_nearest_neighbor.py:25-74 | every nearest-neighbour variant constant is valid |
| GridFiles.NoRepeatVariants | qiskit_sycamore.py:36-45 | the no-repeat scripts offer distinct gate options, so "different index" means "different gate" |
| GridFiles.ConsecutiveLayersDiffer | qiskit_sycamore.py:36-45 | in consecutive layers a qubit's remembered gate differs |
| GridFiles.ConsecutiveLayersNeverUndo | qrack_universal_nearest_neighbor.cpp:58-103 | in consecutive layers a qubit's gate never undoes the previous one |
| GridFiles.EvenScanSkipsRowZero | pyqrack/pyqrack_t_nn.py:85-98 | scanning even rows from 0, patterns 0 and 1 only give pairs from row 2 on: row 0 never couples |
| GridFiles.PyquilLayerLength | pyquil_sycamore_approximation.py:49-85 | a pyQuil layer has num_qubits single-qubit gates plus 2 per coupled pair |
| GridFiles.QrackSycamore | qrack/qrack_sycamore.cpp:16-158 | corrected (the erase-and-advance choice indexes the two remaining gates): the generator's circuit is the variant's circuit, well formed, with one measure-all at the end and none before |
| GridFiles.QrackSycamoreParity | qrack_sycamore.cpp:14-130 | corrected (skip test on the scanned grid, transpose with the transposed stride): as QrackSycamore, for the parity-start script |
| GridFiles.UniversalNearestNeighbor | qrack_universal_nearest_neighbor.cpp:14-153 | corrected (choice 3 applies IT): as QrackSycamore, for the universal nearest-neighbour script |
| GridFiles.CirqSycamoreParity | cirq_sycamore.py:22-70 | corrected skip test, true division kept: the circuit is the variant's, well formed, with one measurement per qubit at the end, in index order |
| GridFiles.CirqSycamore | cirq/cirq_sycamore.py:22-73 | the same, for the no-repeat Cirq script |
| GridFiles.QiskitSycamore | qiskit_sycamore.py:23-73 | the same, with qubit j measured into bit j |
| GridFiles.PyquilSycamore | pyquil_sycamore_approximation.py:28-95 | the instruction list is the variant's, well formed, and holds no measurement |
| GridFiles.QcgpuSycamore | qcgpu_sycamore_approximation.py:44-98 | the circuit is the variant's (two passes per layer), well formed, ending in one measure-all |
| GridFiles.PyqrackSycamoreTwoPass | pyqrack_sycamore.py:21-81 | `reset_all` first, the variant's layers, one final measurement of all qubits |
| GridFiles.PyqrackSycamore | pyqrack/pyqrack_sycamore.py:21-76 | `reset_all` first, the variant's layers, `m_all` last |
| GridFiles.PyqrackNearestNeighbor | pyqrack_nearest_neighbor.py:25-74 | `reset_all` first, the variant's layers, one measurement of all qubits last |
| GridFiles.PyqrackDenseNearestNeighbor | pyqrack_dense_nearest_neighbor.py:57-102 | `reset_all` first, the variant's layers, one final measurement of all qubits |
| GridFiles.QiskitQrackTnn | qiskit_qrack_t_nn_d.py:63-123 | the variant's layers, then qubit j measured into bit j |
| GridFiles.QiskitTnn | qiskit/qiskit_t_nn.py:64-108 | the variant's layers, then qubit j measured into bit j |
| GridFiles.QcgpuTnn | qcgpu/qcgpu_t_nn.py:65-109 | the variant's layers, then one final measure |
| GridFiles.PyqrackTnn | pyqrack/pyqrack_t_nn.py:63-107 | the even-row variant's layers, then every qubit measured into its bit |
| GridFiles.PyqrackEulerNn | pyqrack/pyqrack_euler_nn.py:52-101 | the variant's layers, then every qubit measured into its bit |
| Pools.Range | pyqrack_dense.py:90 | the list of all qubits 0 .. n-1 in increasing order |
| Pools.RangeMembers | qrack_random_circuit.cpp:52-57 | the starting pool holds every qubit below n, each once |
| Pools.RemoveAt | qrack_random_circuit.cpp:17-19 | erasing a position shortens the pool by one |
| Pools.RemoveAtMembers | qrack_random_circuit.cpp:17-19 | erasing one element of a duplicate-free pool removes exactly that element and keeps it duplicate-free |
| Pools.ListRemove | pyqrack_dense.py:92-95 | `list.remove(x)` raises (None) exactly when x is absent; otherwise the list shrinks by one |
| Pools.ListRemoveAt | pyqrack_dense.py:92-95 | removing the value just chosen from a duplicate-free list erases the chosen position |
| Pools.ClampedPosition | qrack_random_circuit.cpp:13-16 | the position is below the size, is the bucket holding the draw when Rand() < 1, and is size−1 when Rand() == 1 |
| Pools.ClampOnlyAtOne | qrack_random_circuit.cpp:14-16 | the clamp changes the truncated position exactly when Rand() returns 1 |
| Pools.Position | qrack_random_circuit.cpp:13-17 | a draw selects a valid position for either picker |
| Pools.UnusedBits.constructor | qrack_random_circuit.cpp:52-57 | a new pool holds the qubits 0 .. n-1 |
| Pools.UnusedBits.Pick | qrack_random_circuit.cpp:10-21 | `pickRandomBit` returns the element at the drawn position and erases exactly that one, keeping the pool duplicate-free |
| Basis.RandPerm | pyqrack_random_circuit_validation.py:59-61 | `rand_perm` is clamped into [0, 2^n) |
| Basis.Bits | pyqrack_random_circuit_validation.py:63-65 | a value's n bits, qubit 0 first |
| Basis.BitsAt | pyqrack_random_circuit_validation.py:64 | entry q of the bits is `(x >> q) & 1 > 0` |
| Basis.PackBound | pyqrack/pyqrack_test_qft_cosmology.py:81-84 | the packed measurement word is below 2^len(m) |
| Basis.PackBits | pyqrack/pyqrack_test_qft_cosmology.py:81-84 | reading the n bits of x < 2^n and packing them gives x back |
| Basis.BitsPack | pyqrack/pyqrack_test_qft_cosmology.py:81-84 | packing measurement bits and reading them back gives the same bits |
| Basis.PackSnoc | pyqrack/pyqrack_test_qft_cosmology.py:83-84 | one more result adds `1 << i` exactly when it is set |
| Basis.PackResults | pyqrack/pyqrack_test_qft_cosmology.py:81-84 | the `mi \|= 1 << i` loop gives the word whose bit i is m[i], below 2^len(m) |
| Basis.Prep | pyqrack_random_circuit_validation.py:63-65 | the preparation holds only X gates, on qubits whose bit of rand_perm is set |
| Basis.PrepareBasis | pyqrack_random_circuit_validation.py:63-65 | the preparation loop emits exactly those X gates, in qubit order |
| Basis.PrepReachesPerm | pyqrack_random_circuit_validation.py:59-65 | the X gates take the all-zero state to the basis state whose bits are rand_perm, which packs back to rand_perm |
| Basis.PrepFlips | pyqrack_random_circuit_validation.py:63-65 | after the first k steps, qubits below k hold rand_perm's bits and the rest are 0 |
| Basis.Flip | pyqrack_random_circuit_validation.py:65 | a circuit of X gates takes an n-qubit basis state to an n-qubit basis state |
| RandomCircuits.PairRound | qrack_random_circuit.cpp:71-76 | a two-qubit round takes two qubits and leaves the rest |
| RandomCircuits.TripleRound | qrack/qrack_random_circuit.cpp:144-172 | a three-qubit round takes a third qubit from the rest |
| RandomCircuits.MaxGatesFinish | qrack_random_circuit.cpp:63-80 | the `maxGates` round takes two or three qubits, and none is lost |
| RandomCircuits.NestedFinishOf | qrack/qrack_random_circuit.cpp:108-172 | the nested round takes two or three qubits, and none is lost |
| RandomCircuits.ListsFinish | pyqrack_dense.py:96-104 | the list round takes two or three qubits, and none is lost |
| RandomCircuits.Round | qrack_random_circuit.cpp:59-81 | one iteration of the grouping loop splits the pool into the qubits it took (at least 2) and the rest |
| RandomCircuits.MaxGatesSound | qrack_random_circuit.cpp:63-80 | CCNOT draws b3 only while the pool is non-empty; every round applies one gate on exactly the drawn, distinct qubits |
| RandomCircuits.NestedSound | qrack/qrack_random_circuit.cpp:104-172 | b3 is drawn only in the else-branch, which needs a non-empty pool; a gate, if any, acts on exactly the drawn qubits |
| RandomCircuits.ListsSound | pyqrack_dense.py:96-104 | a three-qubit gate is kept only when a third qubit remains; the gate acts on exactly the removed, distinct qubits |
| RandomCircuits.TripleRoundSound | pyqrack_random_ccx.py:33-41 | the corrected triple draw removes three distinct pool members |
| RandomCircuits.PairRoundSound | qrack_random_circuit.cpp:71-76 | a pair round acts on two distinct pool members |
| RandomCircuits.FinishSound | qrack/qrack_random_circuit.cpp:104-172 | every rule's round takes distinct pool members and gates act only on them |
| RandomCircuits.RoundSound | qrack_random_circuit.cpp:59-81 | a round on a duplicate-free pool draws distinct members and leaves a duplicate-free rest |
| RandomCircuits.RoundOperands | qrack_random_circuit.cpp:59-81 | a round's gate operands are distinct and among the qubits it took |
| RandomCircuits.GroupsSound | qrack_random_circuit.cpp:59-81 | on a duplicate-free pool, no qubit is an operand of two gates, every operand comes from the pool, the loop stops with at most 1 qubit left (2 for the Toffoli rule), the qubits left are unused, and with a rule that always applies a gate every pool qubit is used or left |
| RandomCircuits.GroupsGates | qrack/qrack_random_circuit.cpp:104-172 | every grouped gate is one of the rule's gates, with the rule's arity |
| RandomCircuits.NestedGates | qrack/qrack_random_circuit.cpp:112-172 | the nested branches give only their listed two- and three-qubit gates |
| RandomCircuits.ListsGates | pyqrack_dense.py:96-104 | the list rule gives only gates from its lists |
| RandomCircuits.FinishGates | qrack_random_circuit.cpp:69-80 | every rule's round gives only that rule's gates |
| RandomCircuits.RunRound | qrack_random_circuit.cpp:60-80 | the loop body, on the pool object, applies the round specification and shrinks the pool |
| RandomCircuits.NestedFinish | qrack/qrack_random_circuit.cpp:108-172 | the nested branches, on the pool object, give the nested round |
| RandomCircuits.GroupsStepRun | qrack_random_circuit.cpp:59-81 | one loop iteration emits the round and leaves the rest of the specification |
| RandomCircuits.RunGroups | qrack_random_circuit.cpp:52-81 | the grouping loop from {0..n-1} emits the grouping specification |
| RandomCircuits.RunLayer | qrack_random_circuit.cpp:39-81 | one layer is the single-qubit part followed by the grouping part |
| RandomCircuits.AppendLayer | qrack_random_circuit.cpp:37-82 | the depth loop extends the circuit by exactly one layer |
| RandomCircuits.Generate | qrack_random_circuit.cpp:37-84 | the generator builds the circuit specification |
| RandomCircuits.GroupPartSound | pyqrack_dense.py:90-104 | a layer's grouped gates are well formed with distinct operands across the layer; started from the qubit list with a rule that always applies a gate, they leave at most 1 qubit idle (2 for the Toffoli rule) |
| RandomCircuits.RegisterGroups | qrack/qrack_random_circuit.cpp:99-173 | grouping from the whole register gives well-formed gates on distinct qubits |
| RandomCircuits.GroupPartGates | qrack/qrack_random_circuit.cpp:104-172 | a grouped layer's gates all come from the script's rule |
| RandomCircuits.LayerGatesOnly | qrack_random_circuit.cpp:39-81 | a random layer is well-formed gates only |
| RandomCircuits.LayersGatesOnly | qrack_random_circuit.cpp:37-82 | any number of random layers is well-formed gates only |
| RandomCircuits.CircuitShape | qrack_random_circuit.cpp:37-84 | the circuit is the optional reset, gates, then the final measurements, with nothing measured earlier |
| RandomCircuits.CircuitIsLayers | pyquil_random_circuit.py:17-45 | with no reset and no measurement, the circuit is exactly its layers |
| RandomCircuits.WrappedRangeNeverGroups | qiskit_random_circuit.py:25-26 | starting from the one-element `[range(n)]`, the grouping loop never runs: the layers equal those of the same script with no grouping |
| RandomCircuits.UngroupedSingleQubitOnly | pyqrack_random_circuit.py:54-60 | with no grouping loop, every instruction of the layers is a one-qubit gate |
| RandomCircuits.WrappedRangeSingleQubitOnly | qiskit_random_circuit.py:25-26 | started from `[range(n)]`, whatever the grouping rule, the layers hold one-qubit gates only |
| RandomCircuits.SingleGateLayers | pyquil_random_circuit.py:29-45 | with no grouping and one gate per choice, k layers hold k·n instructions |
| RandomCircuits.SingleGateLayer | qiskit_qrack_single_qubits.py:18-22 | with one gate per choice and no grouping, a layer has n instructions |
| RandomFiles.VariantsValid | qrack_random_circuit.cpp:28-85 | every random-script variant constant is valid, as written and as intended |
| RandomFiles.WrappedRangeScriptsNeverGroup | pyqrack_random_circuit.py:63-64 | in each `[range(n)]` script as written the layers are those of the script with no grouping loop, and hold one-qubit gates only |
| RandomFiles.QisMultiGateAsWrittenRaises | pyqrack_random_circuit.py:72 | as written, looking a drawn helper up in the Qiskit tuple raises `ValueError` for every gate the loop can draw |
| RandomFiles.QisMultiGateMirrors | pyqrack_random_circuit.py:69-72 | looked up by its position in its own tuple, as line 58 does, each helper finds the Qiskit method of the same gate |
| RandomFiles.ProjectqToffoliTestAsWrittenRaises | projectq/projectq_random_circuit.py:34-36 | as written the Toffoli test reads `circ`, a name bound nowhere in the script: `NameError` whatever the gate |
| RandomFiles.ProjectqToffoliTest | projectq/projectq_random_circuit.py:33-41 | read through `ops`, the test is true exactly for the Toffoli and false for Swap, CNOT and CZ |
| RandomFiles.QubitListScriptsCouple | pyqrack_dense.py:90-104 | started from the list of qubits, the same scripts couple all qubits but at most one per layer, none twice |
| RandomFiles.DenseCcxAsWrittenMalformed | pyqrack_dense.py:53-54 | the `ccx` helper as written passes q2 as both control and target: never well formed, and q3 is not an operand |
| RandomFiles.DenseTriplesDistinct | pyqrack_dense.py:96-104 | with ccx on (q1, q2, q3), the dense scripts' grouped gates are well formed, from their lists |
| RandomFiles.PairScriptsApplyPairsOnly | cirq_random_circuit.py:25-32 | the Cirq and pyQuil loops, from the qubit list, apply only Swap, CNOT or CZ |
| RandomFiles.QrackRandomLayer | qrack_random_circuit.cpp:59-80 | every grouped gate is Swap, CZ, CNOT or CCNOT, and at most one qubit stays idle |
| RandomFiles.SingleQubitsLength | qiskit_qrack_single_qubits.py:15-27 | the Qiskit script has depth·n gates plus n measurements; the PyQrack one has the reset, depth·n gates and one measure-all |
| RandomFiles.QrackRandomCircuit | qrack_random_circuit.cpp:28-85 | the circuit is the variant's, well formed, with one `MAll` at the end and none before |
| RandomFiles.QrackNestedRandomCircuit | qrack/qrack_random_circuit.cpp:28-177 | the same, for the nested-branch script |
| RandomFiles.PyqrackDense | pyqrack_dense.py:72-109 | corrected (`ccx` on q1, q2, q3): `reset_all` first, the variant's layers, `m_all` last |
| RandomFiles.PyqrackRandomCircuit | pyqrack_random_circuit.py:43-84 | corrected (pool from the qubit list, Qiskit copy by position): `reset_all` first, the layers, one measurement of all qubits last |
| RandomFiles.PyqrackRandomCircuitExtended | pyqrack_random_circuit_extended.py:52-88 | corrected (pool from the qubit list, `ccx` on q1, q2, q3): `reset_all` first, the variant's layers, one measurement of all qubits last |
| RandomFiles.QiskitRandomCircuit | qiskit_random_circuit.py:14-44 | corrected (pool from the qubit list): the variant's layers, then qubit j measured into bit j |
| RandomFiles.CirqRandomCircuit | cirq_random_circuit.py:13-37 | corrected (pool from the qubit list): the variant's layers, then one measurement per qubit in index order |
| RandomFiles.PyquilRandomCircuit | pyquil_random_circuit.py:17-55 | corrected (pool from the qubit list): the variant's instruction list, well formed, with no measurement |
| RandomFiles.ProjectqRandomCircuit | projectq/projectq_random_circuit.py:16-46 | corrected (pool from the qubit list, Toffoli test through `ops`): the variant's layers, then every qubit measured once |
| RandomFiles.QiskitSingleQubits | qiskit_qrack_single_qubits.py:15-27 | depth·n gates, then qubit j measured into bit j |
| RandomFiles.QiskitSingleQubitsShape | qiskit_qrack_single_qubits.py:15-27 | the circuit is well formed, holds depth·n measurement-free gates, then measures qubit j into bit j |
| RandomFiles.PyqrackSingleQubits | pyqrack_single_qubits.py:12-29 | `reset_all`, depth·n gates, then one measurement of all qubits |
| RandomFiles.PrepGates | pyqrack_random_ccx.py:27-29 | the basis preparation is well-formed gates |
| RandomFiles.ResetGatesMeasure | pyqrack_random_ccx.py:17-44 | reset, gates, then one measure-all is a well-formed circuit measured only at the end |
| RandomFiles.CcxShape | pyqrack_random_ccx.py:17-44 | corrected (`qubits` bound before line 27, b3 removed): the Toffoli bench is a reset, the preparation, the Toffoli layers and one measurement |
| RandomFiles.RandomCcx | pyqrack_random_ccx.py:16-46 | corrected, as CcxShape: the bench gives that circuit, well formed, `reset_all` first, measurement last |
| RandomFiles.RandomCcxLayer | pyqrack_random_ccx.py:33-41 | each corrected layer applies only Toffolis on distinct qubits and leaves at most two idle |
| RandomFiles.CcxRoundAsWrittenRaises | pyqrack_random_ccx.py:37-40 | as written, removing b2 twice raises on every round of a duplicate-free list |
| Mirror.InstrAdjoint | pyqrack_random_circuit_validation.py:95-103 | an instruction's adjoint acts on the same operands with the same arity |
| Mirror.AdjointInvolution | pyqrack_random_circuit_validation.py:52-54 | the adjoint of the adjoint is the gate itself |
| Mirror.Mirrored | pyqrack_random_circuit_validation.py:95-103 | the intended replay: step k is the adjoint of the recorded gate len-1-k |
| Mirror.MirrorCancels | pyqrack_random_circuit_validation.py:67-103 | a circuit followed by its mirror pairs every gate with its adjoint around the middle |
| Mirror.MirrorInvolution | pyqrack_random_circuit_validation.py:95-103 | mirroring twice gives the recorded list back |
| Mirror.Replay | pyqrack_random_circuit_validation.py:95-103 | the reverse-then-replay loop, with adjoints, yields the mirror |
| Mirror.ReplayAsWrittenExact | pyqrack_random_circuit_validation.py:95-103 | replaying the same gates reversed equals the mirror exactly when every recorded gate is its own inverse; a single T already breaks it |
| Mirror.ReplayCallsAsWrittenRaises | pyqrack_random_circuit_validation.py:97-103 | the replay calls as written complete exactly when the record holds one-qubit gates only (a helper called without `sim` raises `TypeError`), and then apply the record unchanged |
| Mirror.CoupledReplayRaises | pyqrack_random_circuit_validation.py:95-103 | a record holding a two- or three-qubit gate makes the replay as written raise |
| Mirror.LastLayerReplayRaises | pyqrack_random_circuit_validation.py:69-103 | a run whose last layer couples some qubits makes the replay as written raise |
| Mirror.ValidationPerm | pyqrack_random_circuit_validation.py:59-61 | the prepared permutation is below 2^n |
| Mirror.ValidationValid | pyqrack_random_circuit_validation.py:50-93 | corrected (pool from the qubit list, `ccx` on q1, q2, q3): the validation variant's single-qubit pass and grouping rule are valid, and it draws the eight single-qubit gates and the dense rule (`ValidationLike`, the premise of Mirror.LayersInvertible) |
| Mirror.ValidationAsWrittenSingleQubitOnly | pyqrack_random_circuit_validation.py:77-78 | as written, from `[range(num_qubits)]`, the recorded layers are the single-qubit passes alone: no two- or three-qubit gate is ever mirrored |
| Mirror.ValidationLayerCouples | pyqrack_random_circuit_validation.py:77-93 | with the pool fixed, every layer on two or more qubits couples some qubits |
| Mirror.ValidationReplayAsWrittenRaises | pyqrack_random_circuit_validation.py:77-103 | with the pool fixed, every run on two or more qubits makes the replay as written raise `TypeError` |
| Mirror.EightInvertible | pyqrack_random_circuit_validation.py:52 | each of the 8 single-qubit gates has an adjoint |
| Mirror.DenseInvertible | pyqrack_random_circuit_validation.py:53-54 | each two- and three-qubit gate of the lists is its own inverse |
| Mirror.LayerInvertible | pyqrack_random_circuit_validation.py:69-93 | every gate of one layer of the validation circuit has a known adjoint |
| Mirror.LayersInvertible | pyqrack_random_circuit_validation.py:69-93 | every recorded gate list has adjoints throughout |
| Mirror.MirroredGates | pyqrack_random_circuit_validation.py:95-103 | the mirror of well-formed gates is well-formed gates |
| Mirror.ValidationShape | pyqrack_random_circuit_validation.py:50-106 | corrected (pool, `ccx`, adjoint replay): reset, preparation of rand_perm, recorded layers, mirror, one measurement; the preparation encodes rand_perm |
| Mirror.ValidationBench | pyqrack_random_circuit_validation.py:50-106 | corrected, as ValidationShape: the bench gives that circuit, well formed, `reset_all` first, the measurement last |
| Mirror.CheckAsWrittenAcceptsMismatch | pyqrack_random_circuit_validation.py:105-106 | as written, the unraised `Exception` lets a mismatch (measured 1, expected 0) pass |
| Mirror.Check | pyqrack_random_circuit_validation.py:105-106 | the corrected check passes exactly when the measured value equals rand_perm |
| Qft.FourierLength | cirq_qft.py:16-19 | the Fourier part over k labels has k(k+1)/2 instructions |
| Qft.FourierAt | cirq_qft.py:16-19 | for each j in ascending order, the phases with k = 0..j−1 come before H on j, at position Tri(j)+k |
| Qft.FourierCounts | cirq_qft.py:16-19 | n H gates and n(n−1)/2 controlled phases |
| Qft.FourierGates | cirq_qft.py:16-19 | over distinct labels in range, every instruction is a well-formed gate |
| Qft.TriFormula | cirq_qft.py:16-17 | 2·Tri(m) = m(m+1) |
| Qft.AppendPhases | cirq_qft.py:17-18 | the inner loop appends the phases of row j; the exponent depends only on j−k |
| Qft.CirqQft | cirq_qft.py:13-23 | the circuit is the Fourier part then one measurement per qubit: n H, n(n−1)/2 phases, n measurements, all well formed |
| Qft.ControlledPhases | pyquil_qft.py:31-36 | the CPHASE list from qubits[0] to qs[idx] uses coeff·π/2^(idx+1) |
| Qft.CoreQftIsFourier | pyquil_qft.py:17-37 | the recursive form equals the loop form on the reversed qubit list |
| Qft.CoreQftShape | pyquil_qft.py:28-37 | one qubit gives [H(q)]; longer lists end with H on qubits[0], after the recursion and the reversed phases |
| Qft.CoreQftCounts | pyquil_qft.py:17-37 | k H gates and k(k−1)/2 CPHASE gates |
| Qft.CoreQftPhases | pyquil_qft.py:31-36 | the CPHASE from qubits[0] to qubits[idx] with angle exponent idx is present |
| Qft.HeadPhases | pyquil_qft.py:33-37 | the reversed phase list of the head is the last row of the loop form |
| Qft.SemiClassicalShape | qiskit/qiskit_qft_single_qubit.py:19-28 | bits 0..n−1 are written once each, in order; n(n−1)/2 phases are conditioned; all on the one qubit |
| Qft.StepWellFormed | qiskit/qiskit_qft_single_qubit.py:19-28 | every instruction of a step acts on the one qubit of the circuit |
| Qft.StepMeasures | qiskit/qiskit_qft_single_qubit.py:23-26 | step i measures into bit i and conditions i phases |
| Qft.SemiClassicalReadsWritten | qiskit/qiskit_qft_single_qubit.py:23-26 | every conditioned phase reads a bit that an earlier measurement wrote |
| Qft.SemiClassicalStepAt | qiskit/qiskit_qft_single_qubit.py:26-28 | step b's measurement into bit b is followed only by the reset |
| Qft.SemiClassicalPrefix | qiskit/qiskit_qft_single_qubit.py:19-28 | the circuit for a steps is a prefix of the circuit for b ≥ a steps |
| Qft.QiskitQftSingleQubit | qiskit/qiskit_qft_single_qubit.py:16-30 | the loop builds that circuit: bits measured are 0..n−1, twice the conditioned count is n(n−1), well formed on one qubit |
| Qft.PhaseRootAsWrittenConstant | pyqrack/pyqrack_qft_single_qubit.py:17-18 | `-1**x` parses as −(1**x): the same entry for every n, which differs from the intended one at n = 2 |
| Qft.PhaseRootDistinct | pyqrack/pyqrack_qft_single_qubit.py:17-18 | the intended entries for two step distances are equal exactly when the distances are |
| Qft.CorrectionsShape | pyqrack/pyqrack_qft_single_qubit.py:28-31 | one correction per earlier result that was 1, on qubit 0, with root index (m_count−j)+1 in [2, m_count+1] |
| Qft.CorrectionsAsWritten | pyqrack/pyqrack_qft_single_qubit.py:17-31 | as written every correction is diag(1, −1), where the intended loop applies, in the same places, roots (−1)^(1/2^k) with k ≥ 1 |
| Qft.CorrectionsExtend | pyqrack/pyqrack_qft_single_qubit.py:28-31 | later results do not change earlier steps' corrections |
| Qft.CorrectRunExtend | pyqrack/pyqrack_qft_single_qubit.py:24-36 | later results do not change the operations of earlier steps |
| Qft.ApplyCorrections | pyqrack/pyqrack_qft_single_qubit.py:28-31 | the correction loop emits the correction specification |
| Qft.MeasureAndCorrect | pyqrack/pyqrack_qft_single_qubit.py:20-38 | m_results has exactly num_qubits entries, entry i the outcome of step i, and the operations are the specification for the chosen backend: the script as written (`PyqrackAsWritten`), with the intended root (`Pyqrack`), or qcgpu/qcgpu_qft_single_qubit.py, whose fresh `qcgpu.State(1)` needs no `reset_all` (`Opening` is empty for it) |
| Qft.StepLayout | pyqrack/pyqrack_qft_single_qubit.py:24-36 | a step is U, the corrections, H, one measurement, then X exactly when the result was 1 |
| Qft.ResetAfterOne | pyqrack/pyqrack_qft_single_qubit.py:33-36 | a measurement is followed by X exactly when its result was 1 |
| Qft.CosmologyBench | pyqrack/pyqrack_test_qft_cosmology.py:14-35 | the measure-and-correct steps, as written (`-1**x`) or with the intended root, then `mi` with bit i set exactly when m[i]: 0 ≤ mi < 2^len(m) |
| Sweep.Rows | qiskit_qrack_t_nn_d.py:169-183 | the CSV rows of a run of events, at most one per event |
| Sweep.RowsAppend | qiskit_qrack_t_nn_d.py:169-183 | the rows of consecutive events concatenate |
| Sweep.DataLines | qiskit_qrack_t_nn_d.py:147-148 | `writerow` gives one line per row, in order |
| Sweep.WrittenRows | qiskit_qrack_t_nn_d.py:147-148 | what the writer appends is the lines of the rows the events record |
| Sweep.CsvWriter.constructor | qiskit_qrack_t_nn_d.py:135-145 | opening in append mode: the old lines are kept, and the header is added only when the file did not exist |
| Sweep.CsvWriter.WriteRow | qiskit_qrack_t_nn_d.py:147-148 | a row is appended as one line at the end of the file |
| Sweep.RunTrial | qiskit_qrack_t_nn_d.py:176-183 | one trial: run the bench; a failure propagates when nothing catches it, a measurement failure caught inside bench writes 'failure', a caught failure writes −999 and re-creates the simulator; the file grows by the trial's rows |
| Sweep.RunSamples | qiskit_qrack_t_nn_d.py:176-183 | the sample loop's log and the lines it appends |
| Sweep.SweepWidth | qiskit_qrack_t_nn_d.py:169-183 | one width: simulator created, depth loop, simulator deleted, lines appended as specified; with a zero progress denominator the first depth ends the sweep before any trial |
| Sweep.Benchmark | qiskit_qrack_t_nn_d.py:158-183 | the whole sweep, its progress denominator computed once: the file is the opened file plus the lines of every row the sweep records |
| Sweep.SweepWidths | qiskit_qrack_t_nn_d.py:169-183 | the width loop stops at the first width a failure ends, and the file gains exactly the lines of the rows it records |
| Sweep.WidthsRange | qiskit_qrack_t_nn_d.py:159-169 | widths increase and are exactly low ≤ n < qubits; `--single` gives the one width qubits−1 |
| Sweep.DepthsRange | qiskit_sycamore.py:119-120 | depths are range(depth), the curated [4, 9, 14, 19], or the single depth−1 |
| Sweep.TrialRows | qiskit_qrack_t_nn_d.py:176-183 | a trial aborts exactly when its failure escapes the harness's handler (any failure with no handler, a gate failure when only the measurement is caught); otherwise it writes one row with n+1 and d+1 (time, 'failure' or −999) |
| Sweep.SamplesRows | qiskit_qrack_t_nn_d.py:176-183 | a cell with no abort writes `samples` rows, all with n+1 and the recorded depth |
| Sweep.DepthsTally | qiskit_qrack_t_nn_d.py:170-183 | each depth of a width gets exactly `samples` rows |
| Sweep.DepthsShape | qiskit_qrack_t_nn_d.py:170-183 | a width's depth loop with no abort writes `samples` rows per depth, all with n+1 |
| Sweep.DepthsOrder | qiskit_qrack_t_nn_d.py:170-183 | a width's rows come in increasing depth |
| Sweep.WidthsTally | qiskit_qrack_t_nn_d.py:169-183 | each (width, depth) cell gets exactly `samples` rows |
| Sweep.WidthsOrder | qiskit_qrack_t_nn_d.py:169-183 | rows come in width-then-depth order |
| Sweep.WidthsShape | qiskit_qrack_t_nn_d.py:169-183 | the number of rows is widths × depths × samples |
| Sweep.SweepRows | qiskit_qrack_t_nn_d.py:158-183 | a sweep no failure aborts writes exactly `samples` rows per grid cell, ordered by width then depth, and no others |
| Sweep.RowsInGrid | qiskit_qrack_t_nn_d.py:169-183 | every written row's (num_qubits, depth) is a cell of the grid |
| Sweep.QuietSurvives | qiskit_qrack_t_nn_d.py:172-183 | when no bench call raises, no trial ends the sweep, and the sweep survives exactly when its progress line does not raise |
| Sweep.HandlerSurvives | qiskit_qrack_t_nn_d.py:172-183 | no trial of a harness whose try surrounds bench ends the sweep, nor of one whose bench catches only its measurement when no gate raises; the sweep survives exactly when its progress line, outside every try, does not raise |
| Sweep.AbortNeedsEscape | cirq_sycamore.py:105-125 | only the progress line's division by zero, a harness without exception handling, or one catching only the measurement under an oracle where some gate raises, ends a sweep early |
| Sweep.SweepOutcome | qiskit_sycamore.py:119-129 | when no trial escapes, the sweep ends early exactly when its progress line raises, and then with no row; otherwise it writes `samples` rows per grid cell in width-then-depth order |
| Sweep.TrialRecordsRun | pyqrack/pyqrack_t_nn.py:152-163 | a trial's bench call and its row: the row records the harness's width and depth |
| Sweep.TrialAlive | pyqrack_dense.py:154-163 | a trial leaves exactly one live simulator, even after a −999 re-creation |
| Sweep.WidthAlive | pyqrack_random_circuit.py:135-149 | a width starts and ends with the idle number of simulators, or leaves one live when a failure ends the sweep inside it |
| Sweep.OpenCloseAlive | pyqrack_random_circuit.py:135-149 | a per-width simulator is created at the width's start and deleted at its end |
| Sweep.SweepAlive | pyqrack_random_circuit.py:126-149 | after a sweep, no per-width simulator is left alive (one shared simulator for shared harnesses), unless it aborted |
| Sweep.ProgressBelowOne | qiskit_qrack_t_nn_d.py:172 | over range(depth), each cell's progress numerator is below the denominator |
| Sweep.ProgressIncreases | qiskit_qrack_t_nn_d.py:172 | the progress numerator increases along the sweep |
| Sweep.TwentyOverruns | pyqrack_nearest_neighbor.py:113-115 | with `range(20)` and depth < 20, the last cell's progress is at least 1 |
| Sweep.LastCellOverruns | pyqrack_nearest_neighbor.py:113-116 | at depth 19 with `--depth` below 20 the progress fraction is at least 1 |
| Sweep.ProgressAbortsExactly | qiskit_sycamore.py:119-122 | the progress line `((n - low) * depth + d) / ((high - low) * depth)` raises exactly when there is a width to sweep, `--depth` is 0 and the depth list is the curated four, `[depth - 1]` or `range(20)`; `range(depth)` is empty then, and without a depth loop it never raises |
| Sweep.ProgressAbortWritesNothing | pyqrack_random_ccx.py:79-86 | when the progress line raises, the sweep's events are the shared or first per-width simulator's creation only: it is aborted and has written no row |
| Sweep.DepthZeroWritesNothing | pyqrack/pyqrack_sycamore.py:111-116 | under `--depth 0`, a sweep over the curated four, `[depth - 1]` or `range(20)` with a width to sweep ends at its first progress line, whatever bench does, with no row |
| Sweep.FileAfterRuns | qiskit_qrack_t_nn_d.py:135-145 | over successive runs on a new file, the file is one header and the data lines of every run, in order |
| Sweep.HeaderOnce | qiskit_qrack_t_nn_d.py:142-143 | successive runs write the header exactly once, at the top |
| Sweep.AbortsAtFirstTrial | cirq_sycamore.py:118-125 | under any failure oracle by which every bench call's failure escapes the handler, the sweep stops at its first trial with no row written, or before it when the progress line raises |
| Harnesses.Corrected | pyqrack/pyqrack_t_nn.py:152-163 | the corrected harness keeps the depth plan, the failure handling and the simulator lifetime; it runs the width it records |
| Harnesses.NarrowRuns | pyqrack/pyqrack_t_nn.py:152-163 | as written, each row of pyqrack_t_nn, pyqrack_euler_nn, pyqrack_qft_single_qubit and pyqrack_test_qft_cosmology records a width one more than the bench ran |
| Harnesses.CorrectedRecordsRun | pyqrack/pyqrack_t_nn.py:152-163 | corrected, each row records the width and depth the bench ran |
| Harnesses.CirqSycamoreSingleWritesNothing | cirq_sycamore.py:106-115 | with `--single`, `range(qubits, qubits)` is empty and the sweep writes nothing |
| Harnesses.SingleSweepsOneWidth | qiskit_qrack_t_nn_d.py:159-169 | with low = qubits−1, `--single` sweeps one width, writing samples × depths rows, all recording num_qubits = qubits |
| Harnesses.SingleGridKeys | qiskit_qrack_t_nn_d.py:159-169 | every cell of the `--single` grid records num_qubits = qubits |
| Harnesses.NearestNeighborOverruns | pyqrack_nearest_neighbor.py:113-115 | the hard-coded `range(20)` under `--depth` < 20 prints a progress of 1 or more |
| Harnesses.NearestNeighborProgress | pyqrack_nearest_neighbor.py:113-117 | over range(depth) the progress lies in [0, 1) and grows along the sweep |
| Harnesses.SharedSentinelSweep | qiskit_qrack_t_nn_d.py:158-183 | whatever fails, the sweep completes with `samples` rows per (n+1, d+1) for low ≤ n < qubits and 0 ≤ d < depth, in width-then-depth order, and its one simulator stays live |
| Harnesses.PerWidthSentinelSweep | pyqrack_dense.py:135-163 | whatever fails, the sweep completes with `samples` rows per cell and every per-width simulator deleted |
| Harnesses.FuncSweepRows | cirq_random_circuit.py:72-92 | when no call raises, `samples` rows per (n+1, d+1) for every width and every d in range(depth), in width-then-depth order |
| Harnesses.FuncCuratedRows | qiskit_sycamore.py:109-129 | when no call raises, `samples` rows per width at exactly the depths 5, 10, 15 and 20; under `--depth 0` (with a width to sweep, and only then) the progress line at line 122 ends the sweep with no row |
| Harnesses.FuncQftRows | cirq_qft.py:57-76 | when no call raises, `samples` rows per width with no depth column (also pyquil_qft.py:78-97) |
| Harnesses.PerWidthSweepRows | pyqrack_random_circuit.py:126-149 | when no call raises, `samples` rows per cell of range(depth), and every per-width simulator deleted |
| Harnesses.LastDepthSentinelSweep | pyqrack/pyqrack_sycamore.py:102-130 | whatever bench does, `samples` rows per width, all at depth `depth`, and every per-width simulator deleted; under `--depth 0` (with a width) the progress line at line 116 ends the sweep with no row and the first simulator live |
| Harnesses.ReportsFailureSweep | pyqrack_sycamore.py:77-126 | when no gate raises, the sweep completes with `samples` rows per cell (a failed measurement gives 'failure') |
| Harnesses.ReportsFailureGatesStop | pyqrack_sycamore.py:37-81 | when every gate call raises, the try around the measurement does not catch it: the sweep stops at its first trial with no row |
| Harnesses.TnnRows | pyqrack/pyqrack_t_nn.py:141-163 | when no call raises, `samples` rows per width, all at depth `depth`; under `--depth 0` (with a width) the progress line at line 154 ends the sweep with no row |
| Harnesses.EulerNnSweep | pyqrack/pyqrack_euler_nn.py:135-157 | whatever bench does, `samples` rows per width, all at depth `depth`; under `--depth 0` (with a width) the progress line at line 147 ends the sweep with no row |
| Harnesses.QftSingleQubitSweep | pyqrack/pyqrack_qft_single_qubit.py:63-91 | whatever fails, `samples` rows per width with no depth column, and every per-width simulator deleted |
| Harnesses.CosmologySweep | pyqrack/pyqrack_test_qft_cosmology.py:60-92 | whatever fails, `samples` rows per width with no depth column, and every per-width simulator deleted |
| Harnesses.RandomCcxStopsAtOnce | pyqrack_random_ccx.py:72-95 | with bench as written (`CcxBenchAsWritten`) as the failure oracle, whatever the draws, the sweep ends at its first trial with no row; under `--depth 0` the progress line at line 86 ends it before that trial, after the simulator's creation |
| Distance.DigitRoundTrip | pyqrack_random_circuit.py:89 | a digit character parses back to its value |
| Distance.ParseDigitsRoundTrip | pyqrack_random_circuit.py:89 | `int(s, base)` of the base-b digits of x is x |
| Distance.HexInjective | pyqrack_random_circuit.py:89 | distinct samples get distinct hex keys |
| Distance.SampleKeyIsHex | pyqrack_random_circuit.py:89 | `hex(int(bin(s)[2:], 2))` equals `hex(s)` for every s ≥ 0 |
| Distance.SampleKeys | pyqrack_random_circuit.py:87-89 | the key loop gives one `hex(s)` key per sample, in order |
| Distance.Tally | pyqrack_random_circuit.py:90 | `dict(Counter(keys))`: exactly the keys that occur, each with its number of occurrences |
| Distance.HistogramCounts | pyqrack_random_circuit.py:85-90 | a key's count is the number of samples with that value |
| Distance.DictDiff | pyqrack_random_circuit.py:18-26 | the loop over the key union gives the L1 distance with missing keys read as the default |
| Distance.L1Remove | pyqrack_random_circuit.py:21-24 | the distance over a key set is one key's gap plus the distance over the rest |
| Distance.L1Zero | pyqrack_random_circuit.py:18-26 | the distance is non-negative, and 0 exactly when the two agree on every key |
| Distance.L1Symmetric | pyqrack_random_circuit.py:18-26 | the distance is symmetric |
| Distance.DictDiffProperties | pyqrack_random_circuit.py:18-26 | `dict_diff` is symmetric and 0 for a dict against itself |
| Distance.DictDiffZero | pyqrack_random_circuit.py:18-26 | `dict_diff` is 0 exactly when the dicts agree on every key, with a missing key read as 0 |
| Distance.Tolerance | pyqrack_random_circuit.py:97-98 | an exception with the difference exactly when it exceeds 1200 |
| Distance.Validate | pyqrack_random_circuit.py:85-98 | bench raises exactly when the L1 distance of the sample histogram to the reference exceeds 1200 |
| Distance.SameHistogram | pyqrack_random_circuit.py:85-90 | the histogram's keys are the hex keys of the samples, and each holds its sample's multiplicity |
| Distance.Unique | pyqrack_random_circuit.py:85-90 | there is only one such histogram |

## Left out

- The simulators and quantum libraries (QrackSimulator, Qiskit, Cirq, pyQuil, qcgpu, ProjectQ, QInterface) are left out. A bench is the circuit it builds, plus an oracle, given to the harness as a parameter, saying whether each call completes, raises in its gates, or raises in its final measurement.
- Gate matrices, rotation angles, `π/6`, `sixthRoot` and the `sqrtw` matrices are not modelled: these are floating-point values and stay opaque tags. The uniformity of random draws is also not modelled: draws are oracle inputs.
- Timing (`time.time()`, `clock()`) is not modelled. A row's time field is only "a time", `'failure'` or −999.
- Command-line parsing is left out: the options are a record.
- The printed progress bar is left out. Only the progress fraction's numerator and denominator are modelled, and the ZeroDivisionError of a zero denominator, which ends the sweep.
- The `name` column and the cosmology script's `measurement` column are not modelled: rows hold num_qubits, depth and the time field.
- The validation script writes no CSV and has no per-script harness in the model.
- pyqrack_sycamore.py rebinds `sim` per width without `del`. The model counts that as a release at the width's end (`PerWidthKept`).
- Distance.ParseDigitsRoundTrip: Python's `int()` also accepts signs, underscores and whitespace; the model's parser does not.
- Gates.Choice: the `tuple.index` lookup at pyqrack_random_circuit.py:58 cannot raise, because the gate was drawn from the same tuple, so it is not modelled as a separate step. The lookup at pyqrack_random_circuit.py:72 can raise: it is modelled by RandomFiles.QisMultiGateAsWritten (see Findings).
- GridFiles.QrackSycamore: models the corrected program, in which the erase-and-advance choice indexes the two remaining gates. The written advance to `end()` (qrack/qrack_sycamore.cpp:83-94) is Singles.EraseThreeAsWrittenMissesSecond, under Findings.
- GridFiles.QrackSycamoreParity: models the corrected skip test and transpose stride. The written ones (qrack_sycamore.cpp:101-115) are Tiling.ParityAsWrittenSelfPair, Tiling.ParityAsWrittenWrapPair, Tiling.ParityAsWrittenDropsPair and Grid.TransposeAsWrittenCollides, under Findings.
- GridFiles.UniversalNearestNeighbor: models the corrected choice 3, which applies IT. The written T is Singles.InverseFourAsWrittenUndoes, under Findings.
- GridFiles.CirqSycamoreParity: keeps the true-division factorisation but uses the corrected skip test. The written test at cirq_sycamore.py:57 is the one of Tiling.ParityCellAsWritten, under Findings. Its grid is the exact-arithmetic one of Grid.TrueDivisionFactor, so at n = 58, 61 and 122 it differs from the script's (see Grid.TrueDivisionFactor below).
- Grid.TrueDivisionFactor: reads the test `(n / c) * c != n` in exact rational arithmetic, where it never holds. Python evaluates it in IEEE doubles, where it can hold: 58 / 7 rounds to 8.285714285714286, and times 7 that rounds to 58.00000000000001. So the scripts step colLen down where the model does not. At n = 58 they get a 6 × 9 grid where the model has 7 × 8; at n = 61, 6 × 10 against 7 × 8; at n = 122, 10 × 12 against 11 × 11. Grid.TrueDivisionNeverMismatches is likewise a statement about exact arithmetic only. Floating-point rounding is not modelled.
- GridFiles.CirqSycamore: uses Grid.TrueDivisionFactor, so at n = 58, 61 and 122 its grid is not the one cirq/cirq_sycamore.py:27-30 builds in doubles.
- GridFiles.QcgpuSycamore: uses Grid.TrueDivisionFactor, so at n = 58, 61 and 122 its grid is not the one qcgpu_sycamore_approximation.py:48-51 builds in doubles.
- GridFiles.PyqrackSycamoreTwoPass: uses Grid.TrueDivisionFactor, so at n = 58, 61 and 122 its grid is not the one pyqrack_sycamore.py:30-33 builds in doubles.
- RandomFiles.PyqrackDense: models the corrected `ccx` helper, `mcx([q1, q2], q3)`. The written one is RandomFiles.DenseCcxAsWritten, under Findings.
- RandomFiles.PyqrackRandomCircuit: models the corrected program: the pool starts from the qubit list, and each helper is paired with the Qiskit method at its own position. As written the loop never runs (RandomFiles.WrappedRangeScriptsNeverGroup); once it runs, line 72 raises (RandomFiles.QisMultiGateAsWrittenRaises).
- RandomFiles.PyqrackRandomCircuitExtended: models the pool from the qubit list and the corrected `ccx` helper. The written ones are under Findings.
- RandomFiles.QiskitRandomCircuit: models the pool from the qubit list. As written it is RandomFiles.WrappedRangeScriptsNeverGroup.
- RandomFiles.CirqRandomCircuit: models the pool from the qubit list. As written it is RandomFiles.WrappedRangeScriptsNeverGroup.
- RandomFiles.PyquilRandomCircuit: models the pool from the qubit list. As written it is RandomFiles.WrappedRangeScriptsNeverGroup.
- RandomFiles.ProjectqRandomCircuit: models the pool from the qubit list and the Toffoli test read through `ops`. As written the loop never runs; once it runs, the test raises `NameError` (RandomFiles.ProjectqToffoliTestAsWrittenRaises).
- RandomFiles.CcxShape: states the corrected bench, with `qubits` bound before the preparation loop and b3 removed. As written every call raises (RandomFiles.CcxBenchAsWritten).
- RandomFiles.RandomCcx: the corrected bench, as CcxShape.
- RandomFiles.RandomCcxLayer: the corrected rounds; the written ones are RandomFiles.CcxRoundAsWritten.
- Mirror.ValidationValid: the corrected variant: the pool starts from the qubit list and `ccx` acts on q1, q2, q3. The written pool is Mirror.ValidationAsWrittenSingleQubitOnly; the written `ccx` (pyqrack_random_circuit_validation.py:31-32) is RandomFiles.DenseCcxAsWritten.
- Mirror.ValidationShape: the corrected circuit: the pool and `ccx` as in ValidationValid, and a replay that applies adjoints and passes `sim` to the helpers. The written replay is Mirror.ReplayAsWrittenExact and Mirror.ValidationReplayAsWrittenRaises.
- Mirror.ValidationBench: the corrected bench, as ValidationShape.
- The triangle inequality of `dict_diff` is not proved.
- GridCircuits.LayerLength: the total instruction count over all layers is not stated, only the count per layer.
- qrack_benchmarks.hpp is not part of this model: it holds timing statistics and a width loop hard-coded to 54.
- qrack_qft.cpp and qrack/qrack_qft.cpp are not part of this model: they only call the library's QFT and measure.
- Generator widths are n ≥ 1: `math.sqrt(0)` gives colLen 0 and the factor loop divides by zero.
- The Sycamore gate order per pair (ISwap then CPhase, or CZ power then ISWAP) and the swap and anti-controlled decompositions live in the variant constants. No separate lemma restates them.

## Findings

| source | as written | input that shows it | evidently intended | confidence | as-written member | corrected member |
|---|---|---|---|---|---|---|
| qrack/qrack_sycamore.cpp:83-94 | `std::advance` by `(int)(gateRand*2)` after gateRand was truncated to 0 or 1 | gateRand ≥ 0.5 on a layer after the first: offset 2 runs to `end()` of the two-element set | index `gateRand*2` into the two remaining gates | high; not executed | Singles.EraseThreeAsWrittenMissesSecond | Singles.EraseThreeReachesAll |
| qrack_universal_nearest_neighbor.cpp:99-102 | choice 3 applies T and records "don't T" | previous IT (record 2), Rand() = 0.75: choice 3 applies T, the inverse of IT | apply IT, as the comment says | high; not executed | Singles.InverseFourAsWrittenUndoes | Singles.InverseFourNeverUndoes |
| qrack_sycamore.cpp:101-106 | skip test bounds row by rowLen and column by colLen, the loops' opposite axes | rowLen = 1, n = 5, pattern 1, cell (1, 0): b1 == b2 == 1; n = 6, pattern 1, cell (1, 1): the skip test yields (b1, b2) = (3, 2) in the scanned grid, across the row end, before the transpose at lines 108-115 remaps it; n = 8, pattern 0, cell (3, 0): the real coupler of qubits 6 and 4 is skipped | bound the partner by the scanned grid's own rows and columns | high; not executed | Tiling.ParityAsWrittenSelfPair, Tiling.ParityAsWrittenWrapPair, Tiling.ParityAsWrittenDropsPair | Tiling.CouplersInRange |
| cirq_sycamore.py:57 | the same skip test: row bounded by rowLen, column by colLen | n = 6: rowLen 2, colLen 3.0, pattern 1, cell (1, 1) gives qubit 3 with qubit 2; n = 8: pattern 0, cell (3, 0) skips qubits 6 and 4 | bound the partner by the scanned rows and columns | high; not executed | Tiling.ParityAsWrittenWrapPair | Tiling.CouplersInRange |
| qrack_sycamore.cpp:108-115 | transpose uses rowLen as the stride both ways | 6 × 9 grid (n = 54): 1 and 36 both map to 6 | rebuild with the transposed grid's stride | high; not executed | Grid.TransposeAsWrittenCollides | Grid.TransposeRoundTrip |
| cirq/cirq_sycamore.py:27-30 | divisibility test with true division `/` | n = 7 gives a 2 × 3 grid; qubit 6 is never coupled | integer division `//`, as in qiskit_sycamore.py | high; not executed | Grid.TrueDivisionLosesQubits | Grid.NearSquareCorrect |
| qiskit_random_circuit.py:25 | `bit_set = [range(num_qubits)]` is a one-element list | any n ≥ 2: the pairing loop never runs | `list(range(num_qubits))` | high; not executed | RandomFiles.WrappedRangeScriptsNeverGroup | RandomFiles.QubitListScriptsCouple |
| pyqrack_random_circuit.py:63 | `bit_set = [range(num_qubits)]` | any n ≥ 2: the pairing loop never runs, no multi-qubit gate | `list(range(num_qubits))` | high; not executed | RandomFiles.WrappedRangeScriptsNeverGroup | RandomFiles.PyqrackRandomCircuit |
| pyqrack_random_circuit.py:72 | `qis_multi_bit_gates.index(gate)` looks a pyqrack helper up in the Qiskit tuple | once line 63 is fixed, the first round: `ValueError` | `qis_multi_bit_gates[multi_bit_gates.index(gate)]`, as line 58 does | high; not executed | RandomFiles.QisMultiGateAsWrittenRaises | RandomFiles.QisMultiGateMirrors |
| pyqrack_random_circuit_extended.py:69 | `bit_set = [range(num_qubits)]` | any n ≥ 2: the pairing loop never runs | `list(range(num_qubits))` | high; not executed | RandomFiles.WrappedRangeScriptsNeverGroup | RandomFiles.PyqrackRandomCircuitExtended |
| pyqrack_random_circuit_extended.py:33-34 | `ccx` passes q2 as control and target and ignores q3 | any ccx(q1, q2, q3) | `mcx([q1, q2], q3)` | high; not executed | RandomFiles.DenseCcxAsWrittenMalformed | RandomFiles.DenseTriplesDistinct |
| cirq_random_circuit.py:25 | `bit_set = [range(num_qubits)]` | any n ≥ 2: the pairing loop never runs | `list(range(num_qubits))` | high; not executed | RandomFiles.WrappedRangeScriptsNeverGroup | RandomFiles.CirqRandomCircuit |
| pyquil_random_circuit.py:36 | `bit_set = [reg]`, a one-element list | any n ≥ 2: the pairing loop never runs | the list of the register's qubits | high; not executed | RandomFiles.WrappedRangeScriptsNeverGroup | RandomFiles.PyquilRandomCircuit |
| projectq/projectq_random_circuit.py:27 | `bit_set = [range(num_qubits)]` | any n ≥ 2: the pairing loop never runs | `list(range(num_qubits))` | high; not executed | RandomFiles.WrappedRangeScriptsNeverGroup | RandomFiles.ProjectqRandomCircuit |
| projectq/projectq_random_circuit.py:34-36 | `gate == circ.ccx`, and `circ` is bound nowhere in the script | once line 27 is fixed, the first round reaches line 36: `NameError` | `gate == ops.Toffoli` | high; not executed | RandomFiles.ProjectqToffoliTestAsWrittenRaises | RandomFiles.ProjectqToffoliTest |
| pyqrack_dense.py:53-54 | `ccx` passes q2 as control and target and ignores q3 | any ccx(q1, q2, q3) | `mcx([q1, q2], q3)`, as in `ccy` and `ccz` | high; not executed | RandomFiles.DenseCcxAsWrittenMalformed | RandomFiles.DenseTriplesDistinct |
| pyqrack_random_ccx.py:27 | `for qubit in qubits` reads `qubits`, a local of bench assigned only at line 43 | any width, depth and draws: `UnboundLocalError` after the reset, before any gate; the sweep stops at its first trial | bind `qubits` before the preparation loop | high; not executed | Harnesses.RandomCcxStopsAtOnce | RandomFiles.CcxShape |
| pyqrack_random_ccx.py:37-40 | `bit_set.remove(b2)` a second time instead of b3 | once line 27 is fixed, a width of 3 or more qubits and depth ≥ 1: the first round raises `ValueError` | `bit_set.remove(b3)` | high; not executed | RandomFiles.CcxRoundAsWrittenRaises | RandomFiles.RandomCcxLayer |
| pyqrack_random_circuit_validation.py:77 | `bit_set = [range(num_qubits)]` | any n ≥ 2: no two- or three-qubit gate is recorded, so the mirror test never exercises one | `list(range(num_qubits))` | high; not executed | Mirror.ValidationAsWrittenSingleQubitOnly | Mirror.ValidationShape |
| pyqrack_random_circuit_validation.py:31-32 | `ccx` passes q2 as control and target and ignores q3 | any ccx(q1, q2, q3) | `mcx([q1, q2], q3)` | high; not executed | RandomFiles.DenseCcxAsWrittenMalformed | Mirror.ValidationValid |
| pyqrack_random_circuit_validation.py:97-103 | the recorded helpers are called without `sim` | once line 77 is fixed, any n ≥ 2 and depth ≥ 1: `cx(0, 1)` binds 0 to `circ` and misses q2: `TypeError` | pass `sim` first, as the recording loop does | high; not executed | Mirror.ValidationReplayAsWrittenRaises | Mirror.Replay |
| pyqrack_random_circuit_validation.py:95-103 | replays the recorded gates reversed, without adjoints | a recorded T: T·T ≠ identity | replay each gate's adjoint | high; not executed | Mirror.ReplayAsWrittenExact | Mirror.Replay |
| pyqrack_random_circuit_validation.py:105-106 | `Exception(...)` built but not raised | measured 1 against rand_perm 0 passes | `raise Exception(...)` | high; not executed | Mirror.CheckAsWrittenAcceptsMismatch | Mirror.Check |
| pyqrack/pyqrack_qft_single_qubit.py:17-18 | `-1**(1.0/(1<<(n-1)))` parses as −(1**…) = −1 | n = 2: entry −1 instead of i | `(-1)**(1.0/(1<<(n-1)))` | high; not executed | Qft.CorrectionsAsWritten | Qft.PhaseRootDistinct |
| pyqrack/pyqrack_test_qft_cosmology.py:14-15 | the same `-1**(…)` | n = 2: entry −1 instead of i | `(-1)**(…)` | high; not executed | Qft.PhaseRootAsWrittenConstant | Qft.CosmologyBench |
| pyqrack/pyqrack_t_nn.py:152-163 | `bench(n, d+1)` runs n qubits and records n+1 (also pyqrack_euler_nn.py, pyqrack_qft_single_qubit.py and pyqrack_test_qft_cosmology.py, whose `bench(sim, n)` takes n steps) | n = 3: the row says 4 qubits, the circuit has 3 | `bench(n+1, d+1)` | medium; not executed | Harnesses.NarrowRuns | Harnesses.CorrectedRecordsRun |
| cirq_sycamore.py:106-115 | `--single` sets low = qubits | `--single`: `range(qubits, qubits)` is empty, no row | low = qubits − 1, as in the other scripts | high; not executed | Harnesses.CirqSycamoreSingleWritesNothing | Harnesses.SingleSweepsOneWidth |
| pyqrack_nearest_neighbor.py:113-115 | depth loop hard-coded to `range(20)` | `--depth 10`: the last cell prints progress ≥ 1 | `range(depth)` | high; not executed | Harnesses.NearestNeighborOverruns | Harnesses.NearestNeighborProgress |
