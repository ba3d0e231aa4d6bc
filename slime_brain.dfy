/** The Q-learning brain of one slime (src/SlimeBrain.ts).

    The neural network is abstract: `model` is the network's current
    prediction function from a 6-value state to 4 action values, and a
    training pass (`fit`) is a caller-supplied step from the old network to
    the new one.  Random draws are parameters in [0, 1). */
module Brain {

  /** Length of the state the slime observes:
      (x_slime, y_slime, x_apple, y_apple, x_kiwi, y_kiwi). */
  const STATE_SIZE: nat := 6

  /** The movements a slime can make; their positions are the action indices. */
  const ACTIONS: seq<string> := ["up", "down", "left", "right"]

  /** Hyperparameters of the brain.  Only epsilon is ever written, so the
      others are constants; LEARNING_RATE only configures the optimiser. */
  const LEARNING_RATE: real := 0.01
  const DISCOUNT_FACTOR: real := 0.95
  const INITIAL_EPSILON: real := 1.0
  const EPSILON_DECAY: real := 0.995
  const EPSILON_MIN: real := 0.01

  /** A bound epsilon always stays strictly above: one decay step below the minimum. */
  const EPSILON_FLOOR: real := EPSILON_MIN * EPSILON_DECAY

  type StateVector = s: seq<real> | |s| == STATE_SIZE
    witness [0.0, 0.0, 0.0, 0.0, 0.0, 0.0]

  /** One estimated value per action, as produced by the 4-unit output layer. */
  type QVector = q: seq<real> | |q| == |ACTIONS|
    witness [0.0, 0.0, 0.0, 0.0]

  /** What the network predicts for a state. */
  type QNetwork = StateVector -> QVector

  /** A training step: old network, input state and target vector to the
      network after one epoch of fitting. */
  type FitStep = (QNetwork, StateVector, QVector) -> QNetwork

  /** The exploring action for the second random draw: floor(r * 4).
      Every action owns a quarter of [0, 1). */
  function RandomAction(r: real): (a: nat)
    requires 0.0 <= r < 1.0
    ensures a < |ACTIONS|
    ensures a as real <= r * |ACTIONS| as real < a as real + 1.0
  {
    var f := (r * |ACTIONS| as real).Floor;
    f
  }

  /** Index of the largest value; ties go to the lowest index, as the
      tensor library's argMax does. */
  function ArgMax(q: seq<real>): (k: nat)
    requires |q| > 0
    ensures k < |q|
    ensures forall j :: 0 <= j < |q| ==> q[j] <= q[k]
    ensures forall j :: 0 <= j < k ==> q[j] < q[k]
  {
    if |q| == 1 then 0
    else
      var k' := ArgMax(q[..|q| - 1]);
      if q[|q| - 1] > q[k'] then |q| - 1 else k'
  }

  /** The largest value of a non-empty vector. */
  function MaxOf(q: seq<real>): (m: real)
    requires |q| > 0
    ensures forall j :: 0 <= j < |q| ==> q[j] <= m
    ensures exists j :: 0 <= j < |q| && q[j] == m
  {
    if |q| == 1 then q[0]
    else
      var m' := MaxOf(q[..|q| - 1]);
      if q[|q| - 1] > m' then q[|q| - 1] else m'
  }

  /** The greedy action has the largest predicted value. */
  lemma ArgMaxAttainsMax(q: seq<real>)
    requires |q| > 0
    ensures q[ArgMax(q)] == MaxOf(q)
  {
  }

  /** The value the taken action is trained towards. */
  function BootstrapTarget(nextQ: QVector, reward: real, done: bool): real
  {
    if done then reward else reward + DISCOUNT_FACTOR * MaxOf(nextQ)
  }

  /** The temporal-difference target vector: the current estimates with only
      the taken action's entry replaced. */
  function TdTarget(currentQ: QVector, nextQ: QVector, action: nat, reward: real, done: bool): (t: QVector)
    requires action < |ACTIONS|
    ensures forall i :: 0 <= i < |t| && i != action ==> t[i] == currentQ[i]
    ensures done ==> t[action] == reward
    ensures !done ==> forall j :: 0 <= j < |nextQ| ==> reward + DISCOUNT_FACTOR * nextQ[j] <= t[action]
    ensures !done ==> exists j :: 0 <= j < |nextQ| && t[action] == reward + DISCOUNT_FACTOR * nextQ[j]
  {
    currentQ[action := BootstrapTarget(nextQ, reward, done)]
  }

  /** A terminal experience is trained towards its reward alone, whatever the
      next state's estimates are. */
  lemma TerminalTargetIgnoresNextState(currentQ: QVector, nextQ1: QVector, nextQ2: QVector, action: nat, reward: real)
    requires action < |ACTIONS|
    ensures TdTarget(currentQ, nextQ1, action, reward, true) == TdTarget(currentQ, nextQ2, action, reward, true)
  {
  }

  /** Epsilon after one training call: multiplied by the decay while above
      the minimum, left alone otherwise (no clamp to the minimum). */
  function DecayEpsilon(e: real): (r: real)
    ensures r <= e
    ensures r < e <==> e > EPSILON_MIN
    ensures e > 0.0 ==> r > 0.0
    ensures e >= EPSILON_FLOOR ==> r >= EPSILON_FLOOR
  {
    if e > EPSILON_MIN then e * EPSILON_DECAY else e
  }

  /** Epsilon after n training calls, starting from e. */
  function EpsilonAfter(e: real, n: nat): real
  {
    if n == 0 then e else DecayEpsilon(EpsilonAfter(e, n - 1))
  }

  /** Starting anywhere in [EPSILON_FLOOR, e], epsilon stays there. */
  lemma {:induction false} EpsilonAfterBounds(e: real, n: nat)
    requires EPSILON_FLOOR <= e
    ensures EPSILON_FLOOR <= EpsilonAfter(e, n) <= e
  {
    if n > 0 {
      EpsilonAfterBounds(e, n - 1);
    }
  }

  /** Starting strictly above EPSILON_FLOOR, epsilon never reaches it. */
  lemma {:induction false} EpsilonAboveFloor(e: real, n: nat)
    requires EPSILON_FLOOR < e
    ensures EPSILON_FLOOR < EpsilonAfter(e, n)
  {
    if n > 0 {
      EpsilonAboveFloor(e, n - 1);
    }
  }

  /** Epsilon never increases as training calls accumulate. */
  lemma {:induction false} EpsilonNonIncreasing(e: real, m: nat, n: nat)
    requires m <= n
    ensures EpsilonAfter(e, n) <= EpsilonAfter(e, m)
  {
    if m < n {
      EpsilonNonIncreasing(e, m, n - 1);
    }
  }

  /** Once epsilon is at or below the minimum it no longer changes. */
  lemma {:induction false} EpsilonSettles(e: real, n: nat)
    requires e <= EPSILON_MIN
    ensures EpsilonAfter(e, n) == e
  {
    if n > 0 {
      EpsilonSettles(e, n - 1);
    }
  }

  /** The decay is not a clamp: a value just above the minimum is taken
      below it by one step. */
  lemma DecayCanUndershootMin()
    ensures EPSILON_MIN < 0.01004 && DecayEpsilon(0.01004) < EPSILON_MIN
  {
  }

  /** The brain of one slime: the current network and the exploration rate. */
  class SlimeBrain {
    var model: QNetwork
    var epsilon: real

    /** Number of training calls so far: ties epsilon to its decay history. */
    ghost var trainSteps: nat

    ghost predicate Valid()
      reads this
    {
      epsilon == EpsilonAfter(INITIAL_EPSILON, trainSteps)
    }

    /** The network built by the constructor; its random initial weights
        are the caller's `initialModel`. */
    constructor(initialModel: QNetwork)
      ensures Valid()
      ensures model == initialModel && epsilon == INITIAL_EPSILON && trainSteps == 0
    {
      model := initialModel;
      epsilon := INITIAL_EPSILON;
      trainSteps := 0;
    }

    /** Epsilon-greedy choice.  `explorationDraw` is compared with epsilon;
        when it does not exceed epsilon the action comes from `actionDraw`
        alone, otherwise it is the network's choice for `state`. */
    function ChooseAction(state: StateVector, explorationDraw: real, actionDraw: real): (action: nat)
      reads this
      requires 0.0 <= explorationDraw < 1.0 && 0.0 <= actionDraw < 1.0
      ensures action < |ACTIONS|
      ensures explorationDraw <= epsilon ==> action == RandomAction(actionDraw)
      ensures explorationDraw > epsilon ==> forall a :: 0 <= a < |ACTIONS| ==> model(state)[a] <= model(state)[action]
      ensures explorationDraw > epsilon ==> forall a :: 0 <= a < action ==> model(state)[a] < model(state)[action]
    {
      if explorationDraw <= epsilon then RandomAction(actionDraw) else ArgMax(model(state))
    }

    /** One Q-learning step on the experience (state, action, reward,
        nextState, done): fit the network towards the TD target vector,
        then decay epsilon. */
    method Train(state: StateVector, action: nat, reward: real, nextState: StateVector, done: bool, fit: FitStep)
      requires Valid()
      requires action < |ACTIONS|
      modifies this
      ensures Valid() && trainSteps == old(trainSteps) + 1
      ensures model == fit(old(model), state, TdTarget(old(model)(state), old(model)(nextState), action, reward, done))
      ensures epsilon == DecayEpsilon(old(epsilon))
    {
      var currentQ := model(state);
      var nextQ := model(nextState);
      var maxNextQ := MaxOf(nextQ);
      var targetQ := new real[|currentQ|](i requires 0 <= i < |currentQ| => currentQ[i]);
      if done {
        targetQ[action] := reward;
      } else {
        targetQ[action] := reward + DISCOUNT_FACTOR * maxNextQ;
      }
      assert targetQ[..] == TdTarget(currentQ, nextQ, action, reward, done);
      model := fit(model, state, targetQ[..]);
      if epsilon > EPSILON_MIN {
        epsilon := epsilon * EPSILON_DECAY;
      }
      trainSteps := trainSteps + 1;
    }
  }

  /** Epsilon of a brain that has only been trained stays within
      (EPSILON_FLOOR, INITIAL_EPSILON]. */
  lemma ValidEpsilonInRange(b: SlimeBrain)
    requires b.Valid()
    ensures EPSILON_FLOOR < b.epsilon <= INITIAL_EPSILON
  {
    EpsilonAfterBounds(INITIAL_EPSILON, b.trainSteps);
    EpsilonAboveFloor(INITIAL_EPSILON, b.trainSteps);
  }

  /** A fresh brain explores on every call: every draw in [0, 1) is at most
      the initial epsilon. */
  lemma FreshBrainAlwaysExplores(b: SlimeBrain, state: StateVector, explorationDraw: real, actionDraw: real)
    requires b.Valid() && b.trainSteps == 0
    requires 0.0 <= explorationDraw < 1.0 && 0.0 <= actionDraw < 1.0
    ensures b.ChooseAction(state, explorationDraw, actionDraw) == RandomAction(actionDraw)
  {
  }

  /** The exploring action is uniform: action a is drawn exactly on the
      quarter [a/4, (a+1)/4) of [0, 1). */
  lemma RandomActionInterval(r: real, a: nat)
    requires 0.0 <= r < 1.0 && a < |ACTIONS|
    ensures RandomAction(r) == a <==> a as real / 4.0 <= r < (a as real + 1.0) / 4.0
  {
  }
}
