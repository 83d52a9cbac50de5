/**
 * A quoted message in front of a reply's text (apps/remote/server/message-replies.ts:7-32): an envelope of JSON whose `<` are
 * escaped, so that the first closing mark behind the opening one is the envelope's own.
 */
module MessageReplies {
  import opened Options
  import opened Utf16
  import opened JsonText
  import MessageReferences

  const PREFIX: Text := Ascii("<pi-message-reply>")
  const SUFFIX: Text := Ascii("</pi-message-reply>\n\n")
  const REPLY_PREVIEW_CHARACTERS: nat := 4000
  const LAST_END: nat := 20000

  function Get(j: Json, key: string): Option<Json> {
    if j.Obj? then Find(j.fields, Ascii(key)) else None
  }

  function Find(fs: Fields, key: Text): Option<Json> {
    match fs case NoFields => None case Field(k, v, rest) => if k == key then Some(v) else Find(rest, key)
  }

  predicate IsText(j: Option<Json>) { j.Some? && j.value.Str? }

  /** `finite`: whether a number token stands for a finite number. */
  predicate ValidReply(reply: Json, finite: Text -> bool) {
    var sender := Get(reply, "sender");
    && IsText(Get(reply, "messageId")) && MessageReferences.ParseMessageReference(Get(reply, "messageId").value.s).Some?
    && sender.Some? && IsText(Get(sender.value, "id")) && Get(sender.value, "id").value.s != []
    && (Get(sender.value, "name").None? || IsText(Get(sender.value, "name")))
    && IsText(Get(reply, "text")) && |Get(reply, "text").value.s| <= REPLY_PREVIEW_CHARACTERS + 1
    && (Get(reply, "timestamp").None? || (Get(reply, "timestamp").value.Num? && finite(Get(reply, "timestamp").value.token)))
  }

  function Envelope(reply: Json): Text { EscapeLess(Print(reply)) }

  /** None: the source throws. */
  function EncodeMessageReply(text: Text, reply: Json, finite: Text -> bool): Option<Text> {
    if ValidReply(reply, finite) then Some(PREFIX + Envelope(reply) + SUFFIX + text) else None
  }

  /** `indexOf(p, from)`, or -1. */
  function IndexFrom(t: Text, p: Text, from: nat): (i: int)
    ensures i == -1 || (from <= i && OccursAt(t, p, i))
    decreases |t| - from
  {
    if from + |p| > |t| then -1
    else if OccursAt(t, p, from) then from
    else if from == |t| then -1
    else IndexFrom(t, p, from + 1)
  }

  datatype Decoded = Decoded(text: Text, reply: Option<Json>)

  function DecodeMessageReply(text: Text, finite: Text -> bool): Decoded {
    if !StartsWith(text, PREFIX) then Decoded(text, None)
    else
      var end := IndexFrom(text, SUFFIX, |PREFIX|);
      if end < 0 || end > LAST_END then Decoded(text, None)
      else
        match Parse(text[|PREFIX|..end])
        case None => Decoded(text, None)
        case Some(reply) => if ValidReply(reply, finite) then Decoded(text[end + |SUFFIX|..], Some(reply)) else Decoded(text, None)
  }

  lemma Marks()
    ensures |PREFIX| == 18 && |SUFFIX| == 21 && SUFFIX[0] == LESS
  {
  }

  /** Where no part can begin, the first occurrence is the one at the end. */
  lemma {:induction false} FirstIsAt(t: Text, p: Text, from: nat, end: nat)
    requires from <= end && OccursAt(t, p, end) && p != []
    requires forall i :: from <= i < end ==> t[i] != p[0]
    ensures IndexFrom(t, p, from) == end
    decreases end - from
  {
    if from < end {
      assert from + |p| <= |t| && t[from..from + |p|][0] == t[from];
      FirstIsAt(t, p, from + 1, end);
    }
  }

  lemma Slices(a: Text, body: Text, p: Text, text: Text)
    ensures var all, end := a + body + p + text, |a| + |body|;
      OccursAt(all, p, end) && all[|a|..end] == body && all[end + |p|..] == text && a <= all
  {
  }

  lemma FirstMark(a: Text, body: Text, p: Text, text: Text)
    requires p != [] && p[0] !in body
    ensures IndexFrom(a + body + p + text, p, |a|) == |a| + |body|
  {
    var all, end := a + body + p + text, |a| + |body|;
    Slices(a, body, p, text);
    forall i | |a| <= i < end ensures all[i] != p[0] { assert all[i] == body[i - |a|]; }
    FirstIsAt(all, p, |a|, end);
  }

  lemma EnvelopeEnd(text: Text, reply: Json)
    ensures var all := PREFIX + Envelope(reply) + SUFFIX + text;
      var end := |PREFIX| + |Envelope(reply)|;
      IndexFrom(all, SUFFIX, |PREFIX|) == end && all[|PREFIX|..end] == Envelope(reply) && all[end + |SUFFIX|..] == text && StartsWith(all, PREFIX)
  {
    Marks();
    NoLess(Print(reply));
    FirstMark(PREFIX, Envelope(reply), SUFFIX, text);
    Slices(PREFIX, Envelope(reply), SUFFIX, text);
  }

  /**
   * Decoding undoes encoding, whatever the text and the quoted text contain, exactly when the envelope ends within the limit;
   * beyond it the reply stays part of the text.
   */
  lemma DecodingUndoesEncoding(text: Text, reply: Json, finite: Text -> bool)
    requires Proper(reply) && ValidReply(reply, finite)
    ensures var encoded := EncodeMessageReply(text, reply, finite).value;
      DecodeMessageReply(encoded, finite) ==
        if |PREFIX| + |Envelope(reply)| <= LAST_END then Decoded(text, Some(reply)) else Decoded(encoded, None)
  {
    EnvelopeEnd(text, reply);
    ParsePrinted(reply);
  }

  /** A decoded reply is valid, and the text it leaves is the end of the stored one. */
  lemma DecodedIsValid(text: Text, finite: Text -> bool)
    ensures var d := DecodeMessageReply(text, finite);
      (d.reply.None? ==> d.text == text)
      && (d.reply.Some? ==> ValidReply(d.reply.value, finite) && |d.text| + |PREFIX| + |SUFFIX| <= |text| && d.text == text[|text| - |d.text|..])
  {
    Marks();
  }

  /** The marks around an envelope. */
  lemma MarksAre(text: Text, reply: Json, finite: Text -> bool)
    ensures EncodeMessageReply(text, reply, finite) ==
      if ValidReply(reply, finite) then Some(Ascii("<pi-message-reply>") + Envelope(reply) + Ascii("</pi-message-reply>\n\n") + text) else None
  {}

  /** What a reply must hold, and what it may. */
  lemma ValidMeans(reply: Json, finite: Text -> bool)
    ensures ValidReply(reply, finite) <==>
      && HasText(reply, "messageId") && MessageReferences.ParseMessageReference(Get(reply, "messageId").value.s).Some?
      && Get(reply, "sender").Some? && HasText(Get(reply, "sender").value, "id") && 1 <= |Get(Get(reply, "sender").value, "id").value.s|
      && (Get(Get(reply, "sender").value, "name") == None || HasText(Get(reply, "sender").value, "name"))
      && HasText(reply, "text") && |Get(reply, "text").value.s| <= 4001
      && (Get(reply, "timestamp") == None || (Get(reply, "timestamp").value.Num? && finite(Get(reply, "timestamp").value.token)))
  {}

  predicate HasText(j: Json, key: string) {
    Get(j, key).Some? && Get(j, key).value.Str?
  }
}
