/** The recurrent controller of an agent (`NeuroBlob`, neuroblob.py).

    Neurons are laid out as one bias neuron, then the inputs, the hidden
    neurons and the outputs. Only hidden and output neurons (the
    "recurrent" ones) have incoming weights: `W` has one row per
    recurrent neuron and one column per neuron, and row `i` feeds neuron
    `hiddenStart + i`. */
module NeuroBlobs {
  import opened Numerics

  /** The exceptions the controller raises. */
  datatype Error =
    | InputLengthMismatch   // `step`: wrong number of inputs (ValueError)
    | StateShapeMismatch    // numpy shape error on a loaded state of the wrong length
    | IncompatibleWeights   // `load`: W row count or first-row length wrong (ValueError)
    | MissingFirstRow       // `load`: `W[0]` of an empty W when there are no recurrent neurons (IndexError)
    | RaggedWeights         // `load`: numpy refuses rows of different lengths (ValueError)

  datatype Outcome<T> = Ok(value: T) | Fail(error: Error)

  /** The data `save` writes and `load` reads: the weights row by row and the state. */
  datatype Record = Record(W: seq<seq<real>>, state: seq<real>)

  // ---------------------------------------------------------------------
  // Specification of one propagation step, over sequences.

  /** Row-major matrix whose rows all have length `n`. */
  ghost predicate Rectangular(W: seq<seq<real>>, n: nat)
  {
    forall i :: 0 <= i < |W| ==> |W[i]| == n
  }

  /** `sum_j row[j] * s[j]`, accumulated left to right. */
  function WeightedSum(row: seq<real>, s: seq<real>): real
    requires |row| == |s|
    decreases |s|
  {
    if |s| == 0 then 0.0
    else WeightedSum(row[..|s| - 1], s[..|s| - 1]) + row[|s| - 1] * s[|s| - 1]
  }

  /** `np.dot(W, s)`. */
  function Product(W: seq<seq<real>>, s: seq<real>): (r: seq<real>)
    requires Rectangular(W, |s|)
    ensures |r| == |W|
    ensures forall i :: 0 <= i < |W| ==> r[i] == WeightedSum(W[i], s)
  {
    seq(|W|, i requires 0 <= i < |W| => WeightedSum(W[i], s))
  }

  /** One pass of the loop body of `step`: every recurrent neuron (the last
      `|W|` slots) takes `tanh` of its weighted input, all computed from
      the state before the pass; the bias and input slots are kept. */
  function Activation(W: seq<seq<real>>, s: seq<real>, m: Maths): (r: seq<real>)
    requires Rectangular(W, |s|) && |W| <= |s|
    ensures |r| == |s|
    ensures r[..|s| - |W|] == s[..|s| - |W|]
    ensures forall i :: 0 <= i < |W| ==> r[|s| - |W| + i] == m.tanh(WeightedSum(W[i], s))
  {
    var p := Product(W, s);
    s[..|s| - |W|] + seq(|W|, i requires 0 <= i < |W| => m.tanh(p[i]))
  }

  /** `Activation` as `np.tanh` of the weighted inputs written after the
      first slots. */
  lemma ActivationIsTanhOfProduct(W: seq<seq<real>>, s: seq<real>, m: Maths)
    requires Rectangular(W, |s|) && |W| <= |s|
    ensures Activation(W, s, m) == s[..|s| - |W|] + TanhAll(Product(W, s), m)
  {
    var p := Product(W, s);
    assert seq(|W|, i requires 0 <= i < |W| => m.tanh(p[i])) == TanhAll(p, m);
  }

  /** `np.tanh(v)`, element by element. */
  function TanhAll(v: seq<real>, m: Maths): seq<real>
  {
    seq(|v|, i requires 0 <= i < |v| => m.tanh(v[i]))
  }

  /** `np.tanh(src, out=dst[start:])`: the slots from `start` on take the
      tanh of `src`, the slots before it are kept. */
  method TanhInto(dst: array<real>, src: array<real>, start: nat, m: Maths)
    requires dst != src && start + src.Length == dst.Length
    modifies dst
    ensures dst[..] == old(dst[..start]) + TanhAll(src[..], m)
  {
    ghost var expected := dst[..start] + TanhAll(src[..], m);
    var i := 0;
    while i < src.Length
      invariant 0 <= i <= src.Length
      invariant dst[..start + i] == expected[..start + i]
      invariant dst[start + i..] == old(dst[start + i..])
    {
      dst[start + i] := m.tanh(src[i]);
      i := i + 1;
    }
  }

  /** `k` passes of `Activation`. */
  function Iterate(W: seq<seq<real>>, s: seq<real>, k: nat, m: Maths): (r: seq<real>)
    requires Rectangular(W, |s|) && |W| <= |s|
    ensures |r| == |s|
  {
    if k == 0 then s else Activation(W, Iterate(W, s, k - 1, m), m)
  }

  /** Propagation never touches the bias or the inputs: only the recurrent
      slice is written, however many passes are run. */
  lemma {:induction false} IterateKeepsPrefix(W: seq<seq<real>>, s: seq<real>, k: nat, m: Maths)
    requires Rectangular(W, |s|) && |W| <= |s|
    ensures Iterate(W, s, k, m)[..|s| - |W|] == s[..|s| - |W|]
  {
    if k > 0 {
      IterateKeepsPrefix(W, s, k - 1, m);
    }
  }

  /** With a bounded `tanh`, after at least one pass every recurrent
      neuron lies in [-1, 1]. */
  lemma {:induction false} IterateBounded(W: seq<seq<real>>, s: seq<real>, k: nat, m: Maths)
    requires Rectangular(W, |s|) && |W| <= |s|
    requires TanhBounded(m.tanh) && k >= 1
    ensures forall i :: |s| - |W| <= i < |s| ==> -1.0 <= Iterate(W, s, k, m)[i] <= 1.0
  {
    var prev := Iterate(W, s, k - 1, m);
    var next := Activation(W, prev, m);
    assert Iterate(W, s, k, m) == next && |prev| == |s|;
    forall i | |s| - |W| <= i < |s|
      ensures -1.0 <= next[i] <= 1.0
    {
      var row := i - (|s| - |W|);
      assert next[|prev| - |W| + row] == m.tanh(WeightedSum(W[row], prev));
    }
  }

  /** The state after `state[input_start:hidden_start] = inputs`. */
  function WithInputs(s: seq<real>, inputs: seq<real>): (r: seq<real>)
    requires |inputs| == 0 || |s| >= 1 + |inputs|
    ensures |r| == |s|
    ensures |inputs| == 0 ==> r == s
    ensures |inputs| > 0 ==> r[0] == s[0] && r[1..1 + |inputs|] == inputs && r[1 + |inputs|..] == s[1 + |inputs|..]
  {
    if |inputs| == 0 then s else s[..1] + inputs + s[1 + |inputs|..]
  }

  // ---------------------------------------------------------------------
  // Weight updates.

  /** One weight after `mutate`: `W += mask * mutation`, then the clip to
      [-1, 1] (which also applies to weights the mask leaves alone). */
  function MutatedWeight(w: real, chance: real, rate: real, noise: real): (r: real)
    ensures -1.0 <= r <= 1.0
    ensures -1.0 <= w <= 1.0 && chance >= rate ==> r == w
    ensures -1.0 <= w <= 1.0 && chance < rate ==> r - w <= Abs(noise) && w - r <= Abs(noise)
  {
    Clip(w + (if chance < rate then noise else 0.0), -1.0, 1.0)
  }

  /** One weight after `learn`: the Hebbian term `lr * reward * post * pre`
      is added and the result is clipped to [-1, 1]. */
  /** Element `k` of a vector as numpy broadcasts it: a vector of length 1
      reads the same at every index. */
  function Broadcast(s: seq<real>, k: int): (r: real)
    requires |s| == 1 || 0 <= k < |s|
  {
    if |s| == 1 then s[0] else s[k]
  }

  function LearnedWeight(w: real, lr: real, reward: real, post: real, pre: real): (r: real)
    ensures -1.0 <= r <= 1.0
    ensures -1.0 <= w <= 1.0 && lr * reward * post * pre >= 0.0 ==> w <= r
    ensures -1.0 <= w <= 1.0 && lr * reward * post * pre <= 0.0 ==> r <= w
    ensures -1.0 <= w <= 1.0 && reward == 0.0 ==> r == w
  {
    Clip(w + lr * reward * post * pre, -1.0, 1.0)
  }

  // ---------------------------------------------------------------------
  // Saving and loading.

  /** The validation `load` performs before it replaces W and state: the
      row count, then (by indexing) the first row, then numpy's refusal of
      ragged rows. The state is not checked. */
  function CheckRecord(nRecurrent: nat, nNeurons: nat, rec: Record): (r: Option<Error>)
    ensures r == None <==> |rec.W| == nRecurrent > 0 && Rectangular(rec.W, nNeurons)
    ensures |rec.W| != nRecurrent ==> r == Some(IncompatibleWeights)
    ensures |rec.W| == nRecurrent > 0 && |rec.W[0]| != nNeurons ==> r == Some(IncompatibleWeights)
  {
    if |rec.W| != nRecurrent then Some(IncompatibleWeights)
    else if |rec.W| == 0 then Some(MissingFirstRow)
    else if |rec.W[0]| != nNeurons then Some(IncompatibleWeights)
    else if exists i :: 0 <= i < |rec.W| && |rec.W[i]| != nNeurons then Some(RaggedWeights)
    else None
  }

  /** The state in a record plays no part in its validation. */
  lemma CheckIgnoresState(nRecurrent: nat, nNeurons: nat, rec: Record, state: seq<real>)
    ensures CheckRecord(nRecurrent, nNeurons, rec) == CheckRecord(nRecurrent, nNeurons, Record(rec.W, state))
  {
  }

  // ---------------------------------------------------------------------
  // The controller.

  class NeuroBlob {
    const nInput: nat
    const nHidden: nat
    const nOutput: nat
    const nRecurrent: nat
    const nNeurons: nat
    const inputStart: nat
    const hiddenStart: nat
    const outputStart: nat
    var W: array2<real>
    var state: array<real>
    const buffer: array<real>

    /** The index layout and the shapes; `state` may have any length after
        a `load`, since `load` does not check it. */
    ghost predicate Valid()
      reads this
    {
      nRecurrent == nHidden + nOutput &&
      nNeurons == 1 + nInput + nHidden + nOutput &&
      inputStart == 1 &&
      hiddenStart == inputStart + nInput &&
      outputStart == hiddenStart + nHidden &&
      W.Length0 == nRecurrent && W.Length1 == nNeurons &&
      buffer.Length == nRecurrent &&
      state != buffer
    }

    /** W as a sequence of rows. */
    function Matrix(): (r: seq<seq<real>>)
      reads this, W
      ensures |r| == W.Length0 && Rectangular(r, W.Length1)
      ensures forall i, j :: 0 <= i < W.Length0 && 0 <= j < W.Length1 ==> r[i][j] == W[i, j]
    {
      seq(W.Length0, i requires 0 <= i < W.Length0 reads this, W =>
        seq(W.Length1, j requires 0 <= i < W.Length0 && 0 <= j < W.Length1 reads this, W => W[i, j]))
    }

    /** `NeuroBlob(n_input, n_hidden, n_output, allow_self_connections)`;
        `uniform(i, j)` is the random initial weight of `W[i][j]`. */
    constructor (nInput: nat, nHidden: nat, nOutput: nat, allowSelfConnections: bool,
                 uniform: (nat, nat) -> real)
      ensures Valid() && fresh(W) && fresh(state) && fresh(buffer)
      ensures this.nInput == nInput && this.nHidden == nHidden && this.nOutput == nOutput
      ensures state.Length == nNeurons && state[0] == 1.0
      ensures forall i :: 1 <= i < state.Length ==> state[i] == 0.0
      ensures forall i, j :: 0 <= i < nRecurrent && 0 <= j < nNeurons ==>
        W[i, j] == if !allowSelfConnections && j == hiddenStart + i then 0.0 else uniform(i, j)
    {
      var rec := nHidden + nOutput;
      var neurons := 1 + nInput + nHidden + nOutput;
      var hs := 1 + nInput;
      this.nInput, this.nHidden, this.nOutput := nInput, nHidden, nOutput;
      nRecurrent, nNeurons := rec, neurons;
      inputStart, hiddenStart, outputStart := 1, hs, hs + nHidden;
      W := new real[rec, neurons]((i: nat, j: nat) =>
        if !allowSelfConnections && j == hs + i then 0.0 else uniform(i, j));
      state := new real[neurons](i => if i == 0 then 1.0 else 0.0);
      buffer := new real[rec](i => 0.0);
    }

    /** A controller with the given layout, weights and state (used by
        `Clone`, which models `copy.deepcopy`). */
    constructor FromParts(nInput: nat, nHidden: nat, nOutput: nat, weights: seq<seq<real>>, s: seq<real>)
      requires |weights| == nHidden + nOutput && Rectangular(weights, 1 + nInput + nHidden + nOutput)
      ensures Valid() && fresh(W) && fresh(state) && fresh(buffer)
      ensures this.nInput == nInput && this.nHidden == nHidden && this.nOutput == nOutput
      ensures Matrix() == weights && state[..] == s
    {
      var rec := nHidden + nOutput;
      var neurons := 1 + nInput + nHidden + nOutput;
      var hs := 1 + nInput;
      this.nInput, this.nHidden, this.nOutput := nInput, nHidden, nOutput;
      nRecurrent, nNeurons := rec, neurons;
      inputStart, hiddenStart, outputStart := 1, hs, hs + nHidden;
      W := new real[rec, neurons]((i, j) => if 0 <= i < |weights| && 0 <= j < |weights[i]| then weights[i][j] else 0.0);
      state := new real[|s|](i => if 0 <= i < |s| then s[i] else 0.0);
      buffer := new real[rec](i => 0.0);
      new;
      forall i | 0 <= i < |weights| ensures Matrix()[i] == weights[i] {
      }
    }

    /** `copy.deepcopy(brain)`: an independent controller with equal contents. */
    method Clone() returns (c: NeuroBlob)
      requires Valid()
      ensures fresh(c) && fresh(c.W) && fresh(c.state) && fresh(c.buffer) && c.Valid()
      ensures c.nInput == nInput && c.nHidden == nHidden && c.nOutput == nOutput
      ensures c.Matrix() == Matrix() && c.state[..] == state[..]
    {
      c := new NeuroBlob.FromParts(nInput, nHidden, nOutput, Matrix(), state[..]);
    }

    /** `np.dot(self.W, self.state, out=self.buffer)`. */
    method ComputeBuffer()
      requires Valid() && state.Length == nNeurons
      modifies buffer
      ensures buffer[..] == Product(Matrix(), state[..])
    {
      var i := 0;
      while i < nRecurrent
        invariant 0 <= i <= nRecurrent
        invariant forall r :: 0 <= r < i ==> buffer[r] == WeightedSum(Matrix()[r], state[..])
      {
        var acc := 0.0;
        var j := 0;
        ghost var row := Matrix()[i];
        while j < nNeurons
          invariant 0 <= j <= nNeurons
          invariant acc == WeightedSum(row[..j], state[..j])
          invariant forall r :: 0 <= r < i ==> buffer[r] == WeightedSum(Matrix()[r], state[..])
        {
          assert row[..j + 1][..j] == row[..j] && state[..j + 1][..j] == state[..j];
          acc := acc + W[i, j] * state[j];
          j := j + 1;
        }
        assert row[..nNeurons] == row && state[..nNeurons] == state[..];
        buffer[i] := acc;
        i := i + 1;
      }
    }

    /** `np.tanh(self.buffer, out=self.state[self.hidden_start:])`, when
        `buffer` holds the weighted inputs of the current state: the state
        becomes one `Activation` pass further. */
    method ApplyTanh(m: Maths)
      requires Valid() && state.Length == nNeurons
      requires buffer[..] == Product(Matrix(), state[..])
      modifies state
      ensures state[..] == Activation(Matrix(), old(state[..]), m)
    {
      ActivationIsTanhOfProduct(Matrix(), state[..], m);
      TanhInto(state, buffer, hiddenStart, m);
    }

    /** `self.state[self.input_start:self.hidden_start] = input_values`. */
    method WriteInputs(inputs: seq<real>)
      requires Valid() && |inputs| == nInput && (nInput == 0 || state.Length >= hiddenStart)
      modifies state
      ensures state[..] == WithInputs(old(state[..]), inputs)
    {
      if nInput == 0 {
        return;
      }
      var i := 0;
      while i < nInput
        invariant 0 <= i <= nInput
        invariant state[..inputStart + i] == old(state[..inputStart]) + inputs[..i]
        invariant state[inputStart + i..] == old(state[inputStart + i..])
      {
        state[inputStart + i] := inputs[i];
        i := i + 1;
      }
      assert state[..] == state[..inputStart + nInput] + state[inputStart + nInput..];
    }

    /** The `steps_count` loop of `step`. */
    method Propagate(stepsCount: nat, m: Maths)
      requires Valid() && state.Length == nNeurons
      modifies state, buffer
      ensures state[..] == Iterate(Matrix(), old(state[..]), stepsCount, m)
    {
      var k := 0;
      while k < stepsCount
        invariant 0 <= k <= stepsCount
        invariant state[..] == Iterate(Matrix(), old(state[..]), k, m)
      {
        Pass(m);
        k := k + 1;
      }
    }

    /** One pass of the `steps_count` loop: `np.dot` into the buffer, then
        `np.tanh` into the recurrent slots. */
    method Pass(m: Maths)
      requires Valid() && state.Length == nNeurons
      modifies state, buffer
      ensures state[..] == Activation(Matrix(), old(state[..]), m)
    {
      ComputeBuffer();
      ApplyTanh(m);
    }

    /** `step(input_values, steps_count)`: writes the inputs, runs
        `stepsCount` propagation passes and returns the output neurons.
        A loaded state of the wrong length makes numpy raise: before the
        inputs are written when the input slice is too short, otherwise at
        the first pass. */
    method Step(inputs: seq<real>, stepsCount: nat, m: Maths) returns (r: Outcome<seq<real>>)
      requires Valid()
      modifies state, buffer
      ensures Valid()
      ensures |inputs| != nInput ==> r == Fail(InputLengthMismatch) && state[..] == old(state[..])
      ensures |inputs| == nInput && nInput > 0 && state.Length < hiddenStart ==>
        r == Fail(StateShapeMismatch) && state[..] == old(state[..])
      ensures |inputs| == nInput && state.Length != nNeurons && (nInput == 0 || state.Length >= hiddenStart) ==>
        state[..] == WithInputs(old(state[..]), inputs) &&
        r == if stepsCount == 0 then Ok(state[if outputStart <= state.Length then outputStart else state.Length..])
             else Fail(StateShapeMismatch)
      ensures |inputs| == nInput && state.Length == nNeurons ==>
        state[..] == Iterate(Matrix(), WithInputs(old(state[..]), inputs), stepsCount, m) &&
        r == Ok(state[outputStart..]) && |r.value| == nOutput
    {
      if |inputs| != nInput {
        return Fail(InputLengthMismatch);
      }
      if nInput > 0 && state.Length < hiddenStart {
        return Fail(StateShapeMismatch);
      }
      WriteInputs(inputs);
      if state.Length != nNeurons {
        if stepsCount == 0 {
          return Ok(state[if outputStart <= state.Length then outputStart else state.Length..]);
        }
        return Fail(StateShapeMismatch);
      }
      Propagate(stepsCount, m);
      return Ok(state[outputStart..]);
    }

    /** `mutate(rate, scale)`: `chance(i, j)` is the `np.random.rand` draw
        that decides whether `W[i][j]` is perturbed, `noise(i, j)` the
        `np.random.uniform(-scale, scale)` draw added if it is. */
    method Mutate(rate: real, chance: (nat, nat) -> real, noise: (nat, nat) -> real)
      requires Valid()
      modifies W
      ensures Valid()
      ensures forall i, j :: 0 <= i < W.Length0 && 0 <= j < W.Length1 ==>
        W[i, j] == MutatedWeight(old(W[i, j]), chance(i, j), rate, noise(i, j))
    {
      var i := 0;
      while i < W.Length0
        invariant 0 <= i <= W.Length0
        invariant forall r, j :: 0 <= r < i && 0 <= j < W.Length1 ==>
          W[r, j] == MutatedWeight(old(W[r, j]), chance(r, j), rate, noise(r, j))
        invariant forall r, j :: i <= r < W.Length0 && 0 <= j < W.Length1 ==> W[r, j] == old(W[r, j])
      {
        var j := 0;
        while j < W.Length1
          invariant 0 <= j <= W.Length1
          invariant forall r, c :: 0 <= r < i && 0 <= c < W.Length1 ==>
            W[r, c] == MutatedWeight(old(W[r, c]), chance(r, c), rate, noise(r, c))
          invariant forall c :: 0 <= c < j ==>
            W[i, c] == MutatedWeight(old(W[i, c]), chance(i, c), rate, noise(i, c))
          invariant forall r, c :: i <= r < W.Length0 && 0 <= c < W.Length1 && (r > i || c >= j) ==>
            W[r, c] == old(W[r, c])
        {
          W[i, j] := MutatedWeight(W[i, j], chance(i, j), rate, noise(i, j));
          j := j + 1;
        }
        i := i + 1;
      }
    }

    /** `learn(reward, lr)`: the outer product of the state with itself,
        restricted to its last n_recurrent rows, scaled and added to W, then
        clipped. numpy broadcasts the (1, 1) product of a loaded state of
        length 1 over all of W, and refuses any other shape that is not
        (n_recurrent, n_neurons); with no recurrent neuron `-0:` keeps every
        row, so only the length-1 state passes. */
    method Learn(reward: real, lr: real) returns (err: Option<Error>)
      requires Valid()
      modifies W
      ensures Valid()
      ensures err == None <==> state.Length == 1 || (state.Length == nNeurons && nRecurrent > 0)
      ensures err != None ==> forall i, j :: 0 <= i < W.Length0 && 0 <= j < W.Length1 ==> W[i, j] == old(W[i, j])
      ensures err == None && state.Length == nNeurons ==> forall i, j :: 0 <= i < W.Length0 && 0 <= j < W.Length1 ==>
        W[i, j] == LearnedWeight(old(W[i, j]), lr, reward, state[hiddenStart + i], state[j])
      ensures err == None && state.Length == 1 ==> forall i, j :: 0 <= i < W.Length0 && 0 <= j < W.Length1 ==>
        W[i, j] == LearnedWeight(old(W[i, j]), lr, reward, state[0], state[0])
    {
      if !(state.Length == 1 || (state.Length == nNeurons && nRecurrent > 0)) {
        return Some(StateShapeMismatch);
      }
      var s := state[..];
      var i := 0;
      while i < W.Length0
        invariant 0 <= i <= W.Length0
        invariant forall r, j :: 0 <= r < i && 0 <= j < W.Length1 ==>
          W[r, j] == LearnedWeight(old(W[r, j]), lr, reward, Broadcast(s, hiddenStart + r), Broadcast(s, j))
        invariant forall r, j :: i <= r < W.Length0 && 0 <= j < W.Length1 ==> W[r, j] == old(W[r, j])
      {
        var j := 0;
        while j < W.Length1
          invariant 0 <= j <= W.Length1
          invariant forall r, c :: 0 <= r < i && 0 <= c < W.Length1 ==>
            W[r, c] == LearnedWeight(old(W[r, c]), lr, reward, Broadcast(s, hiddenStart + r), Broadcast(s, c))
          invariant forall c :: 0 <= c < j ==>
            W[i, c] == LearnedWeight(old(W[i, c]), lr, reward, Broadcast(s, hiddenStart + i), Broadcast(s, c))
          invariant forall r, c :: i <= r < W.Length0 && 0 <= c < W.Length1 && (r > i || c >= j) ==>
            W[r, c] == old(W[r, c])
        {
          W[i, j] := LearnedWeight(W[i, j], lr, reward, Broadcast(s, hiddenStart + i), Broadcast(s, j));
          j := j + 1;
        }
        i := i + 1;
      }
      return None;
    }

    /** The record `save` writes; `load` accepts it back whenever the
        network has a recurrent neuron. */
    function ToRecord(): (rec: Record)
      reads this, W, state
      requires Valid()
      ensures |rec.W| == nRecurrent && Rectangular(rec.W, nNeurons)
      ensures rec.state == state[..]
      ensures nRecurrent > 0 ==> CheckRecord(nRecurrent, nNeurons, rec) == None
    {
      Record(Matrix(), state[..])
    }

    /** `load`: replaces W and state by the record's when it passes
        `CheckRecord`, and changes nothing otherwise. */
    method Load(rec: Record) returns (err: Option<Error>)
      requires Valid()
      modifies this`W, this`state
      ensures Valid()
      ensures err == CheckRecord(nRecurrent, nNeurons, rec)
      ensures err == None ==> fresh(W) && fresh(state) && Matrix() == rec.W && state[..] == rec.state
      ensures err != None ==> W == old(W) && state == old(state)
    {
      err := CheckRecord(nRecurrent, nNeurons, rec);
      if err != None {
        return;
      }
      var weights := rec.W;
      W := new real[nRecurrent, nNeurons]((i, j) =>
        if 0 <= i < |weights| && 0 <= j < |weights[i]| then weights[i][j] else 0.0);
      var s := rec.state;
      state := new real[|s|](i => if 0 <= i < |s| then s[i] else 0.0);
      forall i | 0 <= i < |weights| ensures Matrix()[i] == weights[i] {
      }
    }
  }
}
