/**
 * The shared `message` the operator's buttons write and every caller polls.
 * The buttons only ever store one of the texts `Render` gives; callers
 * dispatch on it with substring tests for the keys below.
 */
module Messages {
  import opened Text

  /** Text of a `time.clock_gettime(1)` float: never an upper-case letter or a space. */
  predicate IsStampText(s: string)
  {
    forall i :: 0 <= i < |s| ==> !IsUpper(s[i]) && s[i] != ' '
  }

  type Stamp = s: string | IsStampText(s)

  datatype Message =
    | NoMessage
    | Cq(stamp: Stamp)
    | Response(stamp: Stamp)
    | Partial(stamp: Stamp)
    | ResendClass(stamp: Stamp)
    | ResendSection(stamp: Stamp)
    | Qrz(stamp: Stamp)
    | Die

  /** The text stored in the shared `message` for each kind of broadcast. */
  function Render(m: Message): string
  {
    match m
    case NoMessage => ""
    case Cq(t) => "CQ " + t
    case Response(t) => "RESPONSE " + t
    case Partial(t) => "PARTIAL " + t
    case ResendClass(t) => "RESENDCLASS " + t
    case ResendSection(t) => "RESENDSECTION " + t
    case Qrz(t) => "QRZ " + t
    case Die => "DIE "
  }

  /** The substrings the caller loop tests for, in the order it tests them. */
  const DieKey: string := "DIE "
  const CqKey: string := "CQ "
  const PartialKey: string := "PARTIAL "
  const ResponseKey: string := "RESPONSE "
  const ResendClassKey: string := "RESENDCLASS"
  const ResendSectionKey: string := "RESENDSECTION"
  const QrzKey: string := "QRZ"

  /** The fixed head of a rendered message, before its stamp. */
  function Head(m: Message): string
  {
    match m
    case NoMessage => ""
    case Cq(_) => "CQ "
    case Response(_) => "RESPONSE "
    case Partial(_) => "PARTIAL "
    case ResendClass(_) => "RESENDCLASS "
    case ResendSection(_) => "RESENDSECTION "
    case Qrz(_) => "QRZ "
    case Die => "DIE "
  }

  function StampOf(m: Message): Stamp
  {
    match m
    case Cq(t) => t
    case Response(t) => t
    case Partial(t) => t
    case ResendClass(t) => t
    case ResendSection(t) => t
    case Qrz(t) => t
    case _ => ""
  }

  lemma RenderIsHeadAndStamp(m: Message)
    ensures Render(m) == Head(m) + StampOf(m)
  {
  }

  /** A key occurs in a rendered message exactly when it occurs in its head. */
  lemma KeyInRender(m: Message, key: string)
    requires key in {DieKey, CqKey, PartialKey, ResponseKey, ResendClassKey, ResendSectionKey, QrzKey}
    ensures Contains(Render(m), key) <==> Contains(Head(m), key)
  {
    RenderIsHeadAndStamp(m);
    ContainsAppend(Head(m), StampOf(m), key);
  }

  // Which key occurs in which head, decided character by character on the literals.
  lemma NoMessageHeadKeys()
    ensures !Contains("", "DIE ")
    ensures !Contains("", "CQ ")
    ensures !Contains("", "PARTIAL ")
    ensures !Contains("", "RESPONSE ")
    ensures !Contains("", "RESENDCLASS")
    ensures !Contains("", "RESENDSECTION")
    ensures !Contains("", "QRZ")
  {
  }

  lemma CqHeadKeys()
    ensures !Contains("CQ ", "DIE ")
    ensures Contains("CQ ", "CQ ")
    ensures !Contains("CQ ", "PARTIAL ")
    ensures !Contains("CQ ", "RESPONSE ")
    ensures !Contains("CQ ", "RESENDCLASS")
    ensures !Contains("CQ ", "RESENDSECTION")
    ensures !Contains("CQ ", "QRZ")
  {
  }

  lemma ResponseHeadKeys()
    ensures !Contains("RESPONSE ", "DIE ")
    ensures !Contains("RESPONSE ", "CQ ")
    ensures !Contains("RESPONSE ", "PARTIAL ")
    ensures Contains("RESPONSE ", "RESPONSE ")
    ensures !Contains("RESPONSE ", "RESENDCLASS")
    ensures !Contains("RESPONSE ", "RESENDSECTION")
    ensures !Contains("RESPONSE ", "QRZ")
  {
  }

  lemma PartialHeadKeys()
    ensures !Contains("PARTIAL ", "DIE ")
    ensures !Contains("PARTIAL ", "CQ ")
    ensures Contains("PARTIAL ", "PARTIAL ")
    ensures !Contains("PARTIAL ", "RESPONSE ")
    ensures !Contains("PARTIAL ", "RESENDCLASS")
    ensures !Contains("PARTIAL ", "RESENDSECTION")
    ensures !Contains("PARTIAL ", "QRZ")
  {
  }

  lemma ResendClassHeadKeys()
    ensures !Contains("RESENDCLASS ", "DIE ")
    ensures !Contains("RESENDCLASS ", "CQ ")
    ensures !Contains("RESENDCLASS ", "PARTIAL ")
    ensures !Contains("RESENDCLASS ", "RESPONSE ")
    ensures Contains("RESENDCLASS ", "RESENDCLASS")
    ensures !Contains("RESENDCLASS ", "RESENDSECTION")
    ensures !Contains("RESENDCLASS ", "QRZ")
  {
  }

  lemma ResendSectionHeadKeys()
    ensures !Contains("RESENDSECTION ", "DIE ")
    ensures !Contains("RESENDSECTION ", "CQ ")
    ensures !Contains("RESENDSECTION ", "PARTIAL ")
    ensures !Contains("RESENDSECTION ", "RESPONSE ")
    ensures !Contains("RESENDSECTION ", "RESENDCLASS")
    ensures Contains("RESENDSECTION ", "RESENDSECTION")
    ensures !Contains("RESENDSECTION ", "QRZ")
  {
  }

  lemma QrzHeadKeys()
    ensures !Contains("QRZ ", "DIE ")
    ensures !Contains("QRZ ", "CQ ")
    ensures !Contains("QRZ ", "PARTIAL ")
    ensures !Contains("QRZ ", "RESPONSE ")
    ensures !Contains("QRZ ", "RESENDCLASS")
    ensures !Contains("QRZ ", "RESENDSECTION")
    ensures Contains("QRZ ", "QRZ")
  {
  }

  lemma DieHeadKeys()
    ensures Contains("DIE ", "DIE ")
    ensures !Contains("DIE ", "CQ ")
    ensures !Contains("DIE ", "PARTIAL ")
    ensures !Contains("DIE ", "RESPONSE ")
    ensures !Contains("DIE ", "RESENDCLASS")
    ensures !Contains("DIE ", "RESENDSECTION")
    ensures !Contains("DIE ", "QRZ")
  {
  }

  /** The keys found in each head. */
  lemma HeadKeys(m: Message)
    ensures Contains(Head(m), "DIE ") <==> m.Die?
    ensures Contains(Head(m), "CQ ") <==> m.Cq?
    ensures Contains(Head(m), "PARTIAL ") <==> m.Partial?
    ensures Contains(Head(m), "RESPONSE ") <==> m.Response?
    ensures Contains(Head(m), "RESENDCLASS") <==> m.ResendClass?
    ensures Contains(Head(m), "RESENDSECTION") <==> m.ResendSection?
    ensures Contains(Head(m), "QRZ") <==> m.Qrz?
  {
    match m
    case NoMessage => NoMessageHeadKeys();
    case Cq(_) => CqHeadKeys();
    case Response(_) => ResponseHeadKeys();
    case Partial(_) => PartialHeadKeys();
    case ResendClass(_) => ResendClassHeadKeys();
    case ResendSection(_) => ResendSectionHeadKeys();
    case Qrz(_) => QrzHeadKeys();
    case Die => DieHeadKeys();
  }

  /**
   * Each substring test recognises exactly one kind of message: the
   * dispatch on the text agrees with the tag of the message.
   */
  lemma DispatchKeys(m: Message)
    ensures Contains(Render(m), DieKey) <==> m.Die?
    ensures Contains(Render(m), CqKey) <==> m.Cq?
    ensures Contains(Render(m), PartialKey) <==> m.Partial?
    ensures Contains(Render(m), ResponseKey) <==> m.Response?
    ensures Contains(Render(m), ResendClassKey) <==> m.ResendClass?
    ensures Contains(Render(m), ResendSectionKey) <==> m.ResendSection?
    ensures Contains(Render(m), QrzKey) <==> m.Qrz?
  {
    HeadKeys(m);
    KeyInRender(m, DieKey);
    KeyInRender(m, CqKey);
    KeyInRender(m, PartialKey);
    KeyInRender(m, ResponseKey);
    KeyInRender(m, ResendClassKey);
    KeyInRender(m, ResendSectionKey);
    KeyInRender(m, QrzKey);
  }

  /**
   * Different broadcasts leave different texts, so a caller comparing the
   * text with the last one it answered tells a new stamp from an old one.
   */
  lemma RenderInjective(m1: Message, m2: Message)
    ensures Render(m1) == Render(m2) ==> m1 == m2
  {
    if Render(m1) == Render(m2) {
      DispatchKeys(m1);
      DispatchKeys(m2);
      RenderIsHeadAndStamp(m1);
      RenderIsHeadAndStamp(m2);
      var h := Head(m1);
      assert Head(m2) == h;
      assert StampOf(m1) == Render(m1)[|h|..] == StampOf(m2);
    }
  }
}
