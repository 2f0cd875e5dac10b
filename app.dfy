/**
 * The wizard controller (App.tsx): the current step, the session data the
 * steps share, the coin balance, and one handler per transition. Every
 * awaited remote call is an outcome the caller supplies (see module Remote).
 */
module App {
  import opened Wrappers
  import opened Remote
  import Decimal
  import UploadStep
  import PaymentStep

  datatype AppStep = Upload | Payment | Generating | Results | Subscribe

  const RecreationCost := 10
  const StartingCoins := 20

  const ProceedError := "Please upload between 5 and 10 images."
  const GenerationError := "An error occurred while generating your AI Twin. Please try again."
  const InsufficientCoinsError := "You need " + Decimal.NatToString(RecreationCost) + " coins to recreate. Please purchase more."
  const MissingDescriptionError := "AI Twin description not found. Please start over."
  const RecreationFailedError := "Failed to recreate image. Please try again."

  /** A snapshot of every state field of the controller. */
  datatype Session<F> = Session(
    step: AppStep,
    uploadedFiles: seq<F>,
    generatedImages: seq<string>,
    error: Option<string>,
    personDescription: Option<string>,
    userCoins: int,
    recreatedImage: Option<string>,
    isRecreating: bool,
    recreationError: Option<string>)

  /** The state on first render, and after every reset. */
  function Initial<F>(): Session<F> {
    Session(Upload, [], [], None, None, StartingCoins, None, false, None)
  }

  /** `handleProceedToPayment`: advances exactly when 5 to 10 files are uploaded. */
  function ProceedToPayment<F>(s: Session<F>): (t: Session<F>)
    ensures UploadStep.IsValid(s.uploadedFiles) <==> t.step == Payment && t.error == None
    ensures !UploadStep.IsValid(s.uploadedFiles) ==> t.step == s.step && t.error == Some(ProceedError)
    ensures t.(step := s.step, error := s.error) == s
  {
    if |s.uploadedFiles| < 5 || |s.uploadedFiles| > 10 then
      s.(error := Some(ProceedError))
    else
      s.(error := None, step := Payment)
  }

  /** The first two stages of generation: encode every file, then describe the person. */
  function DescribeStage<F>(files: seq<F>, encode: F -> Outcome<string>, describe: seq<string> -> Outcome<string>): (r: Outcome<string>)
    ensures (exists i :: 0 <= i < |files| && encode(files[i]).Failed?) ==> r == Failed
    ensures (forall i :: 0 <= i < |files| ==> encode(files[i]).Done?) ==>
      r == describe(seq(|files|, i requires 0 <= i < |files| => encode(files[i]).value))
  {
    match JoinAll(files, encode)
    case Done(payloads) =>
      assert payloads == seq(|files|, i requires 0 <= i < |files| => encode(files[i]).value);
      describe(payloads)
    case Failed => Failed
  }

  /** The catch branch of `handlePaymentSuccess`. */
  function GenerationFailed<F>(s: Session<F>): (t: Session<F>)
    ensures t.step == Upload && t.error == Some(GenerationError)
    ensures t.(step := s.step, error := s.error) == s
  {
    s.(error := Some(GenerationError), step := Upload)
  }

  /**
   * `handlePaymentSuccess`: enters `generating`, encodes the files, asks for
   * a description and stores it, asks for the gallery and stores it, then
   * shows the results; a failure at any stage returns to `upload` with the
   * generic error, keeping what was stored before it.
   */
  function AfterPayment<F>(s: Session<F>, encode: F -> Outcome<string>, describe: seq<string> -> Outcome<string>,
                           render: (nat, string) -> Outcome<string>): (t: Session<F>)
    ensures t.step == Results || t.step == Upload
    ensures t.(step := s.step, error := s.error, personDescription := s.personDescription, generatedImages := s.generatedImages) == s
    ensures var d := DescribeStage(s.uploadedFiles, encode, describe);
      && (t.personDescription == if d.Done? then Some(d.value) else s.personDescription)
      && (t.step == Results <==> d.Done? && Gallery(d.value, render).Done?)
    ensures t.step == Results ==>
      && t.error == s.error
      && |t.generatedImages| == PromptCount
      && t.generatedImages == Gallery(t.personDescription.value, render).value
    ensures t.step == Upload ==> t.error == Some(GenerationError) && t.generatedImages == s.generatedImages
  {
    var generating := s.(step := Generating);
    match JoinAll(s.uploadedFiles, encode)
    case Failed => GenerationFailed(generating)
    case Done(payloads) =>
      match describe(payloads)
      case Failed => GenerationFailed(generating)
      case Done(description) =>
        var described := generating.(personDescription := Some(description));
        match Gallery(description, render)
        case Failed => GenerationFailed(described)
        case Done(images) => described.(generatedImages := images, step := Results)
  }

  /** `handlePurchaseCoins`: adds exactly `amount` and clears the recreation error. */
  function PurchaseCoins<F>(s: Session<F>, amount: int): (t: Session<F>)
    ensures t.userCoins == s.userCoins + amount
    ensures t.recreationError == None
    ensures t.(userCoins := s.userCoins, recreationError := s.recreationError) == s
  {
    s.(userCoins := s.userCoins + amount, recreationError := None)
  }

  /** `!personDescription` in JavaScript holds for null and for the empty string. */
  predicate HasDescription<F>(s: Session<F>) {
    s.personDescription.Some? && s.personDescription.value != ""
  }

  /** Both guards of `handleRecreate` pass, so the remote recomposition is requested. */
  predicate RecreateAllowed<F>(s: Session<F>) {
    s.userCoins >= RecreationCost && HasDescription(s)
  }

  /**
   * `handleRecreate`: checks the balance, then the description; when both
   * pass, requests the recomposition and debits the cost only on success.
   */
  function Recreate<F>(s: Session<F>, referenceImage: string, recompose: (string, string) -> Outcome<string>): (t: Session<F>)
    ensures t.(userCoins := s.userCoins, recreatedImage := s.recreatedImage, isRecreating := s.isRecreating,
               recreationError := s.recreationError) == s
    ensures s.userCoins < RecreationCost ==> t == s.(recreationError := Some(InsufficientCoinsError))
    ensures s.userCoins >= RecreationCost && !HasDescription(s) ==> t == s.(recreationError := Some(MissingDescriptionError))
    ensures RecreateAllowed(s) ==> !t.isRecreating
    ensures RecreateAllowed(s) ==>
      var o := recompose(s.personDescription.value, referenceImage);
      if o.Done? then
        t.userCoins == s.userCoins - RecreationCost && t.recreatedImage == Some(o.value) && t.recreationError == None
      else
        t.userCoins == s.userCoins && t.recreatedImage == None && t.recreationError == Some(RecreationFailedError)
    ensures s.userCoins >= 0 ==> t.userCoins >= 0
  {
    if s.userCoins < RecreationCost then
      s.(recreationError := Some(InsufficientCoinsError))
    else if !HasDescription(s) then
      s.(recreationError := Some(MissingDescriptionError))
    else
      var pending := s.(isRecreating := true, recreationError := None, recreatedImage := None);
      match recompose(s.personDescription.value, referenceImage)
      case Done(image) =>
        pending.(recreatedImage := Some(image), userCoins := pending.userCoins - RecreationCost, isRecreating := false)
      case Failed =>
        pending.(recreationError := Some(RecreationFailedError), isRecreating := false)
  }

  /** The controller, one field per piece of React state. */
  class Wizard<F> {
    var appStep: AppStep
    var uploadedFiles: seq<F>
    var generatedImages: seq<string>
    var error: Option<string>
    var personDescription: Option<string>
    var userCoins: int
    var recreatedImage: Option<string>
    var isRecreating: bool
    var recreationError: Option<string>

    function State(): Session<F>
      reads this
    {
      Session(appStep, uploadedFiles, generatedImages, error, personDescription,
              userCoins, recreatedImage, isRecreating, recreationError)
    }

    constructor ()
      ensures State() == Initial()
    {
      appStep := Upload;
      uploadedFiles := [];
      generatedImages := [];
      error := None;
      personDescription := None;
      userCoins := StartingCoins;
      recreatedImage := None;
      isRecreating := false;
      recreationError := None;
    }

    /** `setUploadedFiles`, handed to the upload view as `onFilesSelect`. */
    method SetUploadedFiles(files: seq<F>)
      modifies this
      ensures State() == old(State()).(uploadedFiles := files)
    {
      uploadedFiles := files;
    }

    /** The upload view's picker, wired to this controller's file list. */
    method AddFiles(view: UploadStep.UploadView, picked: Option<seq<F>>)
      modifies this, view
      ensures view.uploadMessage == UploadStep.AddMessage(old(uploadedFiles), picked)
      ensures var r := UploadStep.AddBatch(old(uploadedFiles), picked);
        State() == old(State()).(uploadedFiles := if r.Some? then r.value else old(uploadedFiles))
    {
      var selected := view.HandleFileChange(uploadedFiles, picked);
      if selected.Some? {
        SetUploadedFiles(selected.value);
      }
    }

    /** The upload view's remove button for position `index`, wired to this controller's file list. */
    method RemoveFile(view: UploadStep.UploadView, index: int)
      modifies this, view
      ensures view.uploadMessage == None
      ensures State() == old(State()).(uploadedFiles := UploadStep.RemoveAt(old(uploadedFiles), index))
    {
      var selected := view.RemoveFile(uploadedFiles, index);
      SetUploadedFiles(selected);
    }

    method HandleProceedToPayment()
      modifies this
      ensures State() == ProceedToPayment(old(State()))
    {
      if |uploadedFiles| < 5 || |uploadedFiles| > 10 {
        error := Some(ProceedError);
        return;
      }
      error := None;
      appStep := Payment;
    }

    method HandlePaymentSuccess(encode: F -> Outcome<string>, describe: seq<string> -> Outcome<string>,
                                render: (nat, string) -> Outcome<string>)
      modifies this
      ensures State() == AfterPayment(old(State()), encode, describe, render)
    {
      appStep := Generating;
      var imageBase64s := JoinAll(uploadedFiles, encode);
      if imageBase64s.Failed? {
        error := Some(GenerationError);
        appStep := Upload;
        return;
      }
      var description := describe(imageBase64s.value);
      if description.Failed? {
        error := Some(GenerationError);
        appStep := Upload;
        return;
      }
      personDescription := Some(description.value);
      var images := Gallery(description.value, render);
      if images.Failed? {
        error := Some(GenerationError);
        appStep := Upload;
        return;
      }
      generatedImages := images.value;
      appStep := Results;
    }

    /** `handleSaveAndContinue`: only the step changes. */
    method HandleSaveAndContinue()
      modifies this
      ensures State() == old(State()).(step := Subscribe)
    {
      appStep := Subscribe;
    }

    /** The payment view's `onBack`: only the step changes. */
    method HandleBack()
      modifies this
      ensures State() == old(State()).(step := Upload)
    {
      appStep := Upload;
    }

    /** `handleReset`: the initial state, whatever the state before; so resetting twice is resetting once. */
    method HandleReset()
      modifies this
      ensures State() == Initial()
    {
      uploadedFiles := [];
      generatedImages := [];
      error := None;
      recreatedImage := None;
      isRecreating := false;
      recreationError := None;
      personDescription := None;
      userCoins := StartingCoins;
      appStep := Upload;
    }

    method HandlePurchaseCoins(amount: int)
      modifies this
      ensures State() == PurchaseCoins(old(State()), amount)
    {
      userCoins := userCoins + amount;
      recreationError := None;
    }

    /** `requested` tells whether the remote recomposition was asked for. */
    method HandleRecreate(referenceImage: string, recompose: (string, string) -> Outcome<string>) returns (requested: bool)
      modifies this
      ensures requested == RecreateAllowed(old(State()))
      ensures State() == Recreate(old(State()), referenceImage, recompose)
    {
      requested := false;
      if userCoins < RecreationCost {
        recreationError := Some(InsufficientCoinsError);
        return;
      }
      if personDescription.None? || personDescription.value == "" {
        recreationError := Some(MissingDescriptionError);
        return;
      }
      isRecreating := true;
      recreationError := None;
      recreatedImage := None;
      requested := true;
      var newImage := recompose(personDescription.value, referenceImage);
      if newImage.Done? {
        recreatedImage := Some(newImage.value);
        userCoins := userCoins - RecreationCost;
      } else {
        recreationError := Some(RecreationFailedError);
      }
      isRecreating := false;
    }
  }

  // The user actions each step's view offers (renderStep), and what they do.

  datatype Event<!F> =
    | PickFiles(picked: Option<seq<F>>)
    | DropFile(index: int)
    | Proceed
    | ConfirmPayment(encode: F -> Outcome<string>, describe: seq<string> -> Outcome<string>, render: (nat, string) -> Outcome<string>)
    | GoBack
    | Continue
    | Restart
    | BuyCoins(amount: int)
    | ClickRecreate(referenceImage: Option<string>, recompose: (string, string) -> Outcome<string>)

  /**
   * The actions available in `s`: the upload view while at `upload` (the picker
   * is shown below 10 files, one remove button per file, Create only when the
   * list is valid), the payment view's two buttons, nothing while generating,
   * the results view's two buttons, and the subscription view's restart, its two
   * coin packs and its recreate button (disabled while a recreation runs).
   */
  predicate Enabled<F>(s: Session<F>, e: Event<F>) {
    match e
    case PickFiles(_) => s.step == Upload && |s.uploadedFiles| < UploadStep.MaxFiles
    case DropFile(index) => s.step == Upload && 0 <= index < |s.uploadedFiles|
    case Proceed => s.step == Upload && UploadStep.IsValid(s.uploadedFiles)
    case ConfirmPayment(_, _, _) => s.step == Payment
    case GoBack => s.step == Payment
    case Continue => s.step == Results
    case Restart => s.step == Results || s.step == Subscribe
    case BuyCoins(amount) => s.step == Subscribe && (amount == 20 || amount == 100)
    case ClickRecreate(_, _) => s.step == Subscribe && !s.isRecreating
  }

  /** The effect of an action on the session. */
  function Apply<F>(s: Session<F>, e: Event<F>): Session<F> {
    match e
    case PickFiles(picked) =>
      var r := UploadStep.AddBatch(s.uploadedFiles, picked);
      if r.Some? then s.(uploadedFiles := r.value) else s
    case DropFile(index) => s.(uploadedFiles := UploadStep.RemoveAt(s.uploadedFiles, index))
    case Proceed => ProceedToPayment(s)
    case ConfirmPayment(encode, describe, render) => AfterPayment(s, encode, describe, render)
    case GoBack => s.(step := Upload)
    case Continue => s.(step := Subscribe)
    case Restart => Initial()
    case BuyCoins(amount) => PurchaseCoins(s, amount)
    case ClickRecreate(referenceImage, recompose) =>
      if referenceImage.None? then s else Recreate(s, referenceImage.value, recompose)
  }

  function Run<F>(s: Session<F>, es: seq<Event<F>>): Session<F>
    decreases |es|
  {
    if es == [] then s else Run(Apply(s, es[0]), es[1..])
  }

  /** Every action of `es` is available when it happens. */
  predicate Accepts<F>(s: Session<F>, es: seq<Event<F>>)
    decreases |es|
  {
    es == [] || (Enabled(s, es[0]) && Accepts(Apply(s, es[0]), es[1..]))
  }

  /**
   * What holds between user actions: a non-negative balance, no recreation in
   * flight, at most 10 files, never caught in `generating`, and a description
   * with a full gallery whenever results or the subscription view are shown.
   */
  predicate Inv<F>(s: Session<F>) {
    && s.userCoins >= 0
    && !s.isRecreating
    && |s.uploadedFiles| <= UploadStep.MaxFiles
    && s.step != Generating
    && (s.step == Results || s.step == Subscribe ==> |s.generatedImages| == PromptCount && s.personDescription.Some?)
  }

  lemma InitialInv<F>()
    ensures Inv(Initial<F>())
  {
  }

  lemma ApplyKeepsInv<F>(s: Session<F>, e: Event<F>)
    requires Inv(s) && Enabled(s, e)
    ensures Inv(Apply(s, e))
  {
  }

  /** Along any run of available actions from a state satisfying Inv, Inv holds. */
  lemma {:induction false} RunKeepsInv<F>(s: Session<F>, es: seq<Event<F>>)
    requires Inv(s) && Accepts(s, es)
    ensures Inv(Run(s, es))
    decreases |es|
  {
    if es != [] {
      ApplyKeepsInv(s, es[0]);
      RunKeepsInv(Apply(s, es[0]), es[1..]);
    }
  }

  /** The balance never goes negative in any session, when handlers run to completion one at a time. */
  lemma CoinsNeverNegative<F>(es: seq<Event<F>>)
    requires Accepts(Initial(), es)
    ensures Run(Initial(), es).userCoins >= 0
  {
    InitialInv<F>();
    RunKeepsInv(Initial(), es);
  }

  /** The step changes an available action can make, the generation round trip counted as one. */
  predicate Edge(from: AppStep, to: AppStep) {
    match from
    case Upload => to == Upload || to == Payment
    case Payment => to == Results || to == Upload
    case Generating => false
    case Results => to == Subscribe || to == Upload
    case Subscribe => to == Subscribe || to == Upload
  }

  lemma StepsFollowEdges<F>(s: Session<F>, e: Event<F>)
    requires Enabled(s, e)
    ensures Edge(s.step, Apply(s, e).step)
  {
  }

  /** Only buying, recreating and restarting change the balance. */
  lemma CoinsChangeOnlyByLedger<F>(s: Session<F>, e: Event<F>)
    requires Apply(s, e).userCoins != s.userCoins
    ensures e.BuyCoins? || e.ClickRecreate? || e.Restart?
  {
  }

  lemma RestartIdempotent<F>(s: Session<F>)
    ensures Apply(Apply(s, Restart), Restart) == Apply(s, Restart)
  {
  }

  /** A walk-through up to the results: 5 files, proceed, confirm, generate. */
  method WalkThroughToResults() {
    var w := new Wizard<int>();
    var upload := new UploadStep.UploadView();
    w.AddFiles(upload, Some([1, 2, 3, 4, 5]));
    w.HandleProceedToPayment();
    assert w.appStep == Payment;
    var payment := new PaymentStep.PaymentView();
    var callback := payment.Confirm();
    assert callback == PaymentStep.OnPaymentSuccess;
    w.HandlePaymentSuccess(f => Done("encoded"), ps => Done("a description"), (k, d) => Done("portrait"));
    assert w.appStep == Results && |w.generatedImages| == 4;
  }

  /** The rest of the walk-through: continue, buy 20 coins (40), recreate once (30). */
  method WalkThroughSubscription(w: Wizard<int>, referenceImage: string)
    requires w.appStep == Results && w.userCoins == StartingCoins && HasDescription(w.State())
    modifies w
  {
    w.HandleSaveAndContinue();
    w.HandlePurchaseCoins(20);
    assert w.userCoins == 40;
    var requested := w.HandleRecreate(referenceImage, (d, r) => Done("recreated"));
    assert requested && w.userCoins == 30 && w.recreatedImage == Some("recreated");
    w.HandleReset();
    assert w.State() == Initial();
  }
}
