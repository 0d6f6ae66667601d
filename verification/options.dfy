/** Update options: the buttons of an update alert, their decoding from a
    raw record, and the search for the option that triggers the update. */
module Options {
  import opened Wrappers
  import opened Types

  /** One option offered to the user in an update alert. */
  datatype UpdateOption = UpdateOption(title: string, isUpdateAction: bool)

  /** An option as it appears in the raw configuration: every key may be absent. */
  datatype RawOption = RawOption(title: Option<string>, isUpdateAction: Option<bool>)

  /** Builds an option from its two properties, as the memberwise initializer does. */
  function MakeOption(title: string, isUpdateAction: bool): (o: UpdateOption)
    ensures o.title == title && o.isUpdateAction == isUpdateAction
  {
    UpdateOption(title, isUpdateAction)
  }

  /** Decodes one option: `title` is required, a missing `isUpdateAction`
      means the option is not the update action. */
  function DecodeOption(raw: RawOption): (r: Result<UpdateOption, Fault>)
    ensures raw.title.None? <==> r == Failure(MissingKey("title"))
    ensures r.Success? <==> raw.title.Some?
    ensures r.Success? ==> r.value.title == raw.title.value
    ensures r.Success? ==> (r.value.isUpdateAction <==> raw.isUpdateAction == Some(true))
  {
    if raw.title.None? then Failure(MissingKey("title"))
    else Success(UpdateOption(raw.title.value, raw.isUpdateAction.GetOr(false)))
  }

  /** Decodes an array of options; the first option that fails to decode
      makes the whole array fail with its error. */
  function DecodeOptions(raws: seq<RawOption>): (r: Result<seq<UpdateOption>, Fault>)
    ensures r.Success? <==> forall i | 0 <= i < |raws| :: DecodeOption(raws[i]).Success?
    ensures r.Success? ==> |r.value| == |raws|
    ensures r.Success? ==> forall i | 0 <= i < |raws| :: DecodeOption(raws[i]) == Success(r.value[i])
    ensures r.Failure? ==> exists i | 0 <= i < |raws| ::
      && DecodeOption(raws[i]) == Failure(r.error)
      && forall j | 0 <= j < i :: DecodeOption(raws[j]).Success?
  {
    if |raws| == 0 then Success([])
    else
      var head :- DecodeOption(raws[0]);
      var tail := DecodeOptions(raws[1..]);
      if tail.Failure? then
        assert forall j | 0 <= j < |raws| - 1 :: raws[1..][j] == raws[j + 1];
        Failure(tail.error)
      else
        Success([head] + tail.value)
  }

  /** True when some option of the sequence is the update action. */
  predicate HasUpdateAction(options: seq<UpdateOption>) {
    exists i | 0 <= i < |options| :: options[i].isUpdateAction
  }

  /** The first option, in sequence order, that is the update action;
      `None` when there is none. */
  function UpdateActionOption(options: seq<UpdateOption>): (r: Option<UpdateOption>)
    ensures r.None? <==> !HasUpdateAction(options)
    ensures r.Some? ==> r.value in options && r.value.isUpdateAction
    ensures r.Some? ==> exists i | 0 <= i < |options| ::
      && options[i] == r.value
      && forall j | 0 <= j < i :: !options[j].isUpdateAction
  {
    if |options| == 0 then None
    else if options[0].isUpdateAction then Some(options[0])
    else
      var r := UpdateActionOption(options[1..]);
      assert forall j | 0 <= j < |options| - 1 :: options[1..][j] == options[j + 1];
      assert HasUpdateAction(options[1..]) <==> HasUpdateAction(options);
      r
  }

  /** The option the update action search returns is the one at the first
      update-action index, whatever comes after it. */
  lemma {:induction false} UpdateActionOptionIsFirst(options: seq<UpdateOption>, k: nat)
    requires k < |options| && options[k].isUpdateAction
    requires forall j | 0 <= j < k :: !options[j].isUpdateAction
    ensures UpdateActionOption(options) == Some(options[k])
  {
    if k > 0 {
      assert options[1..][k - 1] == options[k];
      UpdateActionOptionIsFirst(options[1..], k - 1);
    }
  }
}
