/** The projectile scheduler of the main loop: a randomized timer that arms at most one idle slot per timeout. */
module Scheduler {
  import opened Projectile

  datatype Option<T> = None | Some(value: T)

  /** The number of projectile slots (`Fire fire[9]`). */
  const SLOTS := 9

  /** The first value of `lightTimer`, in milliseconds. */
  const INITIAL_LIGHT_TIMER := 5000

  /** The arming condition: the clock has passed the last arming time by more than the timer. */
  predicate Expired(currentTime: int, lastTime: int, lightTimer: int)
  {
    currentTime > lastTime + lightTimer
  }

  /**
   * The next `lightTimer`: 100 times the frequency plus the frequency times a roll
   * below 1000; for a frequency f >= 0 it lies in [100 f, 1099 f].
   */
  function NextTimer(fireFrequency: int, roll: nat): (r: int)
    ensures fireFrequency >= 0 ==> 100 * fireFrequency <= r <= 1099 * fireFrequency
  {
    var timer := 100 * fireFrequency + fireFrequency * (roll % 1000);
    if fireFrequency >= 0 then MulMonotone(fireFrequency, roll % 1000, 999); timer else timer
  }

  lemma MulMonotone(a: nat, b: nat, c: nat)
    requires b <= c
    ensures 0 <= a * b <= a * c
  {
  }

  /** The index of the lowest idle slot, if any. */
  function FirstAvailable(slots: seq<FireState>): (k: Option<nat>)
    ensures k.Some? ==> k.value < |slots| && slots[k.value].available
    ensures k.Some? ==> forall j :: 0 <= j < k.value ==> !slots[j].available
    ensures k.None? ==> forall j :: 0 <= j < |slots| ==> !slots[j].available
  {
    if slots == [] then None
    else if slots[0].available then Some(0)
    else match FirstAvailable(slots[1..])
      case None => None
      case Some(k) => Some(k + 1)
  }

  /** A slot marked for spawning on its next move. */
  function Armed(s: FireState): FireState
  {
    s.(activated := true, available := false)
  }

  /** The arming loop over the slots: the first idle slot is armed, every other slot is left as it was. */
  function ArmFirst(slots: seq<FireState>): (r: seq<FireState>)
    ensures |r| == |slots|
    ensures forall j :: 0 <= j < |slots| ==>
      r[j] == if FirstAvailable(slots) == Some(j) then Armed(slots[j]) else slots[j]
  {
    if slots == [] then []
    else if slots[0].available then [Armed(slots[0])] + slots[1..]
    else [slots[0]] + ArmFirst(slots[1..])
  }

  /** The number of idle slots. */
  function CountAvailable(slots: seq<FireState>): nat
  {
    if slots == [] then 0 else (if slots[0].available then 1 else 0) + CountAvailable(slots[1..])
  }

  /** One timeout takes exactly one slot out of the idle ones when there is one, and none otherwise. */
  lemma {:induction false} ArmsAtMostOne(slots: seq<FireState>)
    ensures CountAvailable(ArmFirst(slots)) == if CountAvailable(slots) > 0 then CountAvailable(slots) - 1 else 0
  {
    if slots != [] {
      if slots[0].available {
        assert ArmFirst(slots)[1..] == slots[1..];
      } else {
        ArmsAtMostOne(slots[1..]);
        assert ArmFirst(slots)[1..] == ArmFirst(slots[1..]);
      }
    }
  }

  /** With all nine slots idle, a timeout arms slot 0 and only slot 0. */
  lemma NineIdleSlots()
    ensures ArmFirst(seq(SLOTS, _ => InitialFire)) == [Armed(InitialFire)] + seq(SLOTS - 1, _ => InitialFire)
  {
    var slots := seq(SLOTS, _ => InitialFire);
    assert slots[1..] == seq(SLOTS - 1, _ => InitialFire);
  }

  /** Arming keeps every slot well formed. */
  lemma ArmKeepsWellFormed(slots: seq<FireState>)
    requires forall j :: 0 <= j < |slots| ==> WellFormed(slots[j])
    ensures forall j :: 0 <= j < |slots| ==> WellFormed(ArmFirst(slots)[j])
  {
  }

  /** The slots of an array of `Fire` objects, as values. */
  function FireStates(fire: array<Fire>): (r: seq<FireState>)
    reads fire, fire[..]
    ensures |r| == fire.Length
  {
    seq(fire.Length, i requires 0 <= i < fire.Length reads fire, fire[..] => fire[i].State())
  }

  /** The arming block of the main loop: the `shot` flag lets only the first idle slot be armed. */
  method Arm(fire: array<Fire>)
    requires forall i, j :: 0 <= i < j < fire.Length ==> fire[i] != fire[j]
    modifies fire[..]
    ensures FireStates(fire) == ArmFirst(old(FireStates(fire)))
  {
    ghost var before := FireStates(fire);
    ghost var first := FirstAvailable(before);
    var shot := false;
    for i := 0 to fire.Length
      invariant forall j :: 0 <= j < i ==> fire[j].State() == if first == Some(j) then Armed(before[j]) else before[j]
      invariant forall j :: i <= j < fire.Length ==> fire[j].State() == before[j]
      invariant shot <==> first.Some? && first.value < i
    {
      if fire[i].available && !shot {
        fire[i].activated := true;
        fire[i].available := false;
        shot := true;
      }
    }
    assert forall j :: 0 <= j < fire.Length ==> FireStates(fire)[j] == ArmFirst(before)[j];
  }
}
