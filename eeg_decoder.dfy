/** The EEG decoding device: the classifier `get_model` builds (strongest channel above a
    threshold becomes a 1-indexed command, 0 otherwise) and the running-flag guard of
    `Decoder`. The baseline normalisation and RMS computation are inputs. */
module EegDecoder {
  import opened Values
  import opened Vectors

  /** What the model returns: the command and the padded or truncated RMS vector, which
      stands for the likelihoods. */
  datatype Output = Output(command: nat, likelihoods: seq<real>)

  /** The `model` closure of `get_model` applied to the RMS vector of the normalised data;
      with no classes `np.argmax` of an empty vector raises ValueError. */
  function Classify(rms: seq<real>, numClasses: nat, thres: real): (r: Outcome<Output>)
    ensures r.Raised? <==> numClasses == 0
    ensures r.Done? ==> r.value.likelihoods == PadOrTruncate(rms, numClasses)
    ensures r.Done? ==> r.value.command <= numClasses
    ensures r.Done? ==> (r.value.command > 0 <==>
      exists i :: 0 <= i < numClasses && r.value.likelihoods[i] > thres)
    ensures r.Done? && r.value.command > 0 ==>
      var c := r.value.command - 1;
      && (forall i :: 0 <= i < numClasses ==> r.value.likelihoods[i] <= r.value.likelihoods[c])
      && (forall i :: 0 <= i < c ==> r.value.likelihoods[i] < r.value.likelihoods[c])
  {
    if numClasses == 0 then Raised("ValueError")
    else
      var v := PadOrTruncate(rms, numClasses);
      var m := ArgMax(v);
      if v[m] > thres then Done(Output(m + 1, v)) else Done(Output(0, v))
  }

  /** `Decoder`: the subscription to the input stream is modelled by counting the
      subscriptions made and disposed of. */
  class Decoder {
    var isRunning: bool
    var hasSubscription: bool
    var subscriptions: nat
    var disposals: nat

    constructor ()
      ensures !isRunning && !hasSubscription && subscriptions == 0 && disposals == 0
    {
      isRunning := false;
      hasSubscription := false;
      subscriptions := 0;
      disposals := 0;
    }

    /** `start`: does nothing when already running; otherwise subscribes once and runs. */
    method Start()
      modifies this
      ensures old(isRunning) ==> unchanged(this)
      ensures !old(isRunning) ==>
        isRunning && hasSubscription && subscriptions == old(subscriptions) + 1 && disposals == old(disposals)
    {
      if isRunning {
        return;
      }
      hasSubscription := true;
      subscriptions := subscriptions + 1;
      isRunning := true;
    }

    /** `stop`: disposes of the subscription if there is one (the attribute is not cleared,
        so a second stop disposes of it again) and always clears the running flag. */
    method Stop()
      modifies this`isRunning, this`disposals
      ensures !isRunning
      ensures disposals == old(disposals) + (if hasSubscription then 1 else 0)
    {
      if hasSubscription {
        disposals := disposals + 1;
      }
      isRunning := false;
    }
  }
}
