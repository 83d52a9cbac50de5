/** References to messages as text and back (apps/remote/server/message-protocol.ts:43-58). */
module MessageReferences {
  import opened Options
  import opened Utf16
  import opened UriText

  datatype Target = Pi(session: Text, message: Text) | Messaging(message: Text)
    | Slack(workspace: Text, channel: Text, message: Text, threadTs: Option<Text>)

  function Parts(target: Target): (parts: seq<Text>)
    ensures parts != []
  {
    match target
    case Pi(session, message) => [Ascii("pi"), session, message]
    case Messaging(message) => [Ascii("messaging"), message]
    case Slack(workspace, channel, message, _) => [Ascii("slack"), workspace, channel, message]
  }

  function EncodeAll(parts: seq<Text>): Option<seq<Text>> {
    if parts == [] then Some([])
    else
      match (Encode(parts[0]), EncodeAll(parts[1..]))
      case (Some(first), Some(rest)) => Some([first] + rest)
      case _ => None
  }

  function DecodeAll(parts: seq<Text>): Option<seq<Text>> {
    if parts == [] then Some([])
    else
      match (Decode(parts[0]), DecodeAll(parts[1..]))
      case (Some(first), Some(rest)) => Some([first] + rest)
      case _ => None
  }

  /** None: a part is not well formed, and the source throws. */
  function MessageReference(target: Target): Option<Text> {
    match EncodeAll(Parts(target))
    case Some(parts) => if parts == [] then None else Some(Join(parts))
    case None => None
  }

  predicate Acceptable(part: Text) {
    part != [] && forall i :: 0 <= i < |part| ==> part[i] > 0x1F
  }

  function ParseMessageReference(value: Text): Option<Target> {
    match DecodeAll(Split(value))
    case None => None
    case Some(parts) => if forall i :: 0 <= i < |parts| ==> Acceptable(parts[i]) then Interpret(parts) else None
  }

  function Interpret(parts: seq<Text>): Option<Target> {
    if |parts| == 3 && parts[0] == Ascii("pi") then Some(Pi(parts[1], parts[2]))
    else if |parts| == 2 && parts[0] == Ascii("messaging") then Some(Messaging(parts[1]))
    else if |parts| == 4 && parts[0] == Ascii("slack") then Some(Slack(parts[1], parts[2], parts[3], None))
    else None
  }

  /** Parts that decode to the given ones, and hold no `/`. */
  ghost predicate Encodes(encoded: seq<Text>, parts: seq<Text>) {
    |encoded| == |parts| && DecodeAll(encoded) == Some(parts) && forall p :: p in encoded ==> SLASH !in p
  }

  lemma {:induction false} EncodedParts(parts: seq<Text>)
    ensures EncodeAll(parts).Some? <==> forall i :: 0 <= i < |parts| ==> WellFormed(parts[i])
    ensures EncodeAll(parts).Some? ==> Encodes(EncodeAll(parts).value, parts)
  {
    if parts != [] {
      EncodedParts(parts[1..]);
      EncodesWellFormed(parts[0]);
      assert (forall i :: 0 <= i < |parts| ==> WellFormed(parts[i])) <==> WellFormed(parts[0]) && forall i :: 0 <= i < |parts[1..]| ==> WellFormed(parts[1..][i]) by {
        assert forall i :: 0 < i < |parts| ==> parts[i] == parts[1..][i - 1];
      }
      if EncodeAll(parts).Some? { EncodesMore(parts[0], parts[1..]); assert [parts[0]] + parts[1..] == parts; }
    }
  }

  lemma EncodesMore(part: Text, parts: seq<Text>)
    requires Encode(part).Some? && EncodeAll(parts).Some? && Encodes(EncodeAll(parts).value, parts)
    ensures Encodes([Encode(part).value] + EncodeAll(parts).value, [part] + parts)
  {
    DecodeEncode(part);
    EncodedHasNoSlash(part);
    var encoded := [Encode(part).value] + EncodeAll(parts).value;
    assert encoded[1..] == EncodeAll(parts).value;
  }

  /** What a reference keeps of its target: all but the Slack thread. */
  function Printed(target: Target): Target {
    match target case Slack(w, c, m, _) => Slack(w, c, m, None) case _ => target
  }

  predicate AllWellFormed(target: Target) {
    forall i :: 0 <= i < |Parts(target)| ==> WellFormed(Parts(target)[i])
  }

  predicate AllAcceptable(target: Target) {
    forall i :: 0 <= i < |Parts(target)| ==> Acceptable(Parts(target)[i])
  }

  /** A reference is printed for exactly the well-formed targets, and parsed back exactly if no part is empty or holds a control character. */
  lemma ParsingUndoesPrinting(target: Target)
    ensures MessageReference(target).Some? <==> AllWellFormed(target)
    ensures MessageReference(target).Some? ==>
      ParseMessageReference(MessageReference(target).value) == if AllAcceptable(target) then Some(Printed(target)) else None
  {
    var parts := Parts(target);
    EncodedParts(parts);
    if EncodeAll(parts).Some? {
      SplitJoin(EncodeAll(parts).value);
      PartsInterpreted(target);
    }
  }

  lemma PartsInterpreted(target: Target)
    ensures Interpret(Parts(target)) == Some(Printed(target))
  {
    assert |Ascii("pi")| == 2 && |Ascii("messaging")| == 9 && |Ascii("slack")| == 5;
  }

  /** Different targets have different references. */
  lemma ReferencesAreUnique(a: Target, b: Target)
    requires AllWellFormed(a) && AllWellFormed(b) && MessageReference(a) == MessageReference(b)
    ensures Printed(a) == Printed(b)
  {
    EncodedParts(Parts(a));
    EncodedParts(Parts(b));
    SplitJoin(EncodeAll(Parts(a)).value);
    SplitJoin(EncodeAll(Parts(b)).value);
    assert Parts(a) == Parts(b);
    PartsInterpreted(a);
    PartsInterpreted(b);
  }

  /** The three forms of a reference. */
  lemma PrintedForms(session: Text, channel: Text, message: Text, thread: Option<Text>)
    requires WellFormed(session) && WellFormed(channel) && WellFormed(message)
    ensures Encode(session).Some? && Encode(channel).Some? && Encode(message).Some?
    ensures MessageReference(Pi(session, message)) == Some(Ascii("pi") + [SLASH] + Encode(session).value + [SLASH] + Encode(message).value)
    ensures MessageReference(Messaging(message)) == Some(Ascii("messaging") + [SLASH] + Encode(message).value)
    ensures MessageReference(Slack(session, channel, message, thread))
      == Some(Ascii("slack") + [SLASH] + Encode(session).value + [SLASH] + Encode(channel).value + [SLASH] + Encode(message).value)
  {
    EncodesWellFormed(session);
    EncodesWellFormed(channel);
    EncodesWellFormed(message);
    KindsStandForThemselves();
    PrintedParts(Ascii("pi"), session, message);
    PrintedMessaging(message);
    PrintedSlack(session, channel, message, thread);
  }

  lemma {:induction false} EncodedAll(parts: seq<Text>, encoded: seq<Text>)
    requires |encoded| == |parts| && forall i :: 0 <= i < |parts| ==> Encode(parts[i]) == Some(encoded[i])
    ensures EncodeAll(parts) == Some(encoded)
  {
    if parts != [] {
      EncodedAll(parts[1..], encoded[1..]);
      assert [encoded[0]] + encoded[1..] == encoded;
    }
  }

  lemma PrintedParts(kind: Text, session: Text, message: Text)
    requires kind == Ascii("pi") && Encode(kind) == Some(kind) && Encode(session).Some? && Encode(message).Some?
    ensures MessageReference(Pi(session, message)) == Some(kind + [SLASH] + Encode(session).value + [SLASH] + Encode(message).value)
  {
    EncodedAll([kind, session, message], [kind, Encode(session).value, Encode(message).value]);
    Joined3(kind, Encode(session).value, Encode(message).value);
  }

  lemma PrintedMessaging(message: Text)
    requires Encode(Ascii("messaging")) == Some(Ascii("messaging")) && Encode(message).Some?
    ensures MessageReference(Messaging(message)) == Some(Ascii("messaging") + [SLASH] + Encode(message).value)
  {
    EncodedAll([Ascii("messaging"), message], [Ascii("messaging"), Encode(message).value]);
    Joined2(Ascii("messaging"), Encode(message).value);
  }

  lemma PrintedSlack(workspace: Text, channel: Text, message: Text, thread: Option<Text>)
    requires Encode(Ascii("slack")) == Some(Ascii("slack")) && Encode(workspace).Some? && Encode(channel).Some? && Encode(message).Some?
    ensures MessageReference(Slack(workspace, channel, message, thread))
      == Some(Ascii("slack") + [SLASH] + Encode(workspace).value + [SLASH] + Encode(channel).value + [SLASH] + Encode(message).value)
  {
    EncodedAll([Ascii("slack"), workspace, channel, message],
      [Ascii("slack"), Encode(workspace).value, Encode(channel).value, Encode(message).value]);
    Joined4(Ascii("slack"), Encode(workspace).value, Encode(channel).value, Encode(message).value);
  }

  lemma {:induction false} LettersStay(t: Text)
    requires forall i :: 0 <= i < |t| ==> 97 <= t[i] <= 122
    ensures Encode(t) == Some(t)
    decreases |t|
  {
    if t != [] {
      LettersStay(t[1..]);
      assert Scalar(t) == Some((t[0] as int, 1));
      assert [t[0]] + t[1..] == t;
    }
  }

  lemma KindsStandForThemselves()
    ensures Encode(Ascii("pi")) == Some(Ascii("pi")) && Encode(Ascii("messaging")) == Some(Ascii("messaging")) && Encode(Ascii("slack")) == Some(Ascii("slack"))
  {
    KindStays("pi");
    KindStays("messaging");
    KindStays("slack");
  }

  lemma KindStays(kind: string)
    requires forall i :: 0 <= i < |kind| ==> 'a' <= kind[i] <= 'z'
    ensures Encode(Ascii(kind)) == Some(Ascii(kind))
  {
    LettersStay(Ascii(kind));
  }

  lemma Joined2(a: Text, b: Text)
    ensures Join([a, b]) == a + [SLASH] + b
  {
    assert [a, b][1..] == [b];
  }

  lemma Joined3(a: Text, b: Text, c: Text)
    ensures Join([a, b, c]) == a + [SLASH] + b + [SLASH] + c
  {
    assert [a, b, c][1..] == [b, c];
    Joined2(b, c);
    assert a + [SLASH] + (b + [SLASH] + c) == a + [SLASH] + b + [SLASH] + c;
  }

  lemma Joined4(a: Text, b: Text, c: Text, d: Text)
    ensures Join([a, b, c, d]) == a + [SLASH] + b + [SLASH] + c + [SLASH] + d
  {
    assert [a, b, c, d][1..] == [b, c, d];
    Joined3(b, c, d);
    assert a + [SLASH] + (b + [SLASH] + c + [SLASH] + d) == a + [SLASH] + b + [SLASH] + c + [SLASH] + d;
  }

  /** Nothing is read but a kind with its number of parts, each of them there and without control characters. */
  lemma ParsesOnly(value: Text, target: Target)
    ensures ParseMessageReference(value) == Some(target) <==>
      && DecodeAll(Split(value)) == Some(Parts(target)) && (target.Slack? ==> target.threadTs.None?)
      && forall part :: part in Parts(target) ==> part != [] && forall i :: 0 <= i < |part| ==> part[i] as int >= 32
  {
    PartsInterpreted(target);
    forall part: Text ensures Acceptable(part) <==> part != [] && forall i :: 0 <= i < |part| ==> part[i] as int >= 32 {}
    var parts := DecodeAll(Split(value));
    if parts.Some? && Interpret(parts.value) == Some(target) { InterpretedParts(parts.value, target); }
  }

  lemma InterpretedParts(parts: seq<Text>, target: Target)
    requires Interpret(parts) == Some(target)
    ensures parts == Parts(target) && Printed(target) == target
  {}
}
