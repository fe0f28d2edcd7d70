/** The button phone that receives the node's alerts: an inbox of SMS
    records with a read flag, a running count of alerts received, and the
    inbox screen, which lists the last ten messages with a short preview. */
module SmsReceiver {

  /** One received message. `timestamp` is the phone's clock when it arrived. */
  datatype Sms = Sms(timestamp: int, sender: string, message: string, read: bool)

  /** How many of the latest messages the inbox screen lists. */
  const ShownCount: nat := 10
  /** How many characters of a message its preview line shows. */
  const PreviewLength: nat := 50

  function Min(a: nat, b: nat): (m: nat)
    ensures m <= a && m <= b && (m == a || m == b)
  {
    if a < b then a else b
  }

  datatype Status = New | Read

  /** One entry of the inbox screen; `number` is the label printed before it. */
  datatype InboxLine = InboxLine(number: nat, status: Status, timestamp: int, sender: string, preview: string)

  datatype InboxView = NoMessages | Listing(lines: seq<InboxLine>)

  /** The first PreviewLength characters of a message, or all of a shorter one. */
  function Preview(message: string): (p: string)
    ensures p <= message
    ensures |p| == Min(PreviewLength, |message|)
  {
    if |message| <= PreviewLength then message else message[..PreviewLength]
  }

  function StatusOf(sms: Sms): (s: Status)
    ensures s == New <==> !sms.read
  {
    if sms.read then Read else New
  }

  /** `line` is how the inbox screen shows `sms` under label `number`. */
  predicate Shows(line: InboxLine, number: nat, sms: Sms) {
    && line.number == number
    && (line.status == New <==> !sms.read)
    && line.timestamp == sms.timestamp
    && line.sender == sms.sender
    && line.preview <= sms.message
    && |line.preview| == Min(PreviewLength, |sms.message|)
  }

  /** The list index of the record the inbox screen labels `number`, when it
      lists `count` records' last ShownCount. */
  function ShownIndex(count: nat, number: nat): (i: int)
    ensures 1 <= number <= Min(ShownCount, count) ==> 0 <= i < count
  {
    count - Min(ShownCount, count) + number - 1
  }

  /** The inbox screen: "No messages" for an empty inbox; otherwise the last
      ShownCount records in stored order, labelled from 1. */
  function ShowSmsInbox(inbox: seq<Sms>): (v: InboxView)
    ensures v.NoMessages? <==> inbox == []
    ensures v.Listing? ==> |v.lines| == Min(ShownCount, |inbox|)
    ensures v.Listing? ==>
              forall k :: 0 <= k < |v.lines| ==> Shows(v.lines[k], k + 1, inbox[ShownIndex(|inbox|, k + 1)])
  {
    if inbox == [] then NoMessages
    else
      var tail := if |inbox| > ShownCount then inbox[|inbox| - ShownCount..] else inbox;
      Listing(seq(|tail|, k requires 0 <= k < |tail| =>
                    InboxLine(k + 1, StatusOf(tail[k]), tail[k].timestamp, tail[k].sender, Preview(tail[k].message))))
  }

  /** The list index the menu's read and delete prompts use: they subtract
      one from the typed number, so every label 1 to ShownCount selects one
      of the first ShownCount records. */
  function TypedIndex(number: int): (i: int)
    ensures 1 <= number <= ShownCount ==> 0 <= i < ShownCount
  {
    number - 1
  }

  /** With more than ShownCount messages the screen's label and the prompt
      disagree: typing the label of a listed record selects an earlier
      record, and typing 1 selects index 0, which the screen does not list. */
  lemma TypedIndexMissesShownLine(inbox: seq<Sms>, number: nat)
    requires |inbox| > ShownCount && 1 <= number <= ShownCount
    ensures ShowSmsInbox(inbox).Listing?
    ensures Shows(ShowSmsInbox(inbox).lines[number - 1], number, inbox[ShownIndex(|inbox|, number)])
    ensures 0 <= TypedIndex(number) < ShownIndex(|inbox|, number)
    ensures number == 1 ==> TypedIndex(number) < |inbox| - ShownCount
  {
  }

  /** With at most ShownCount messages the two agree, so the defect only
      shows on a fuller inbox; through ShownIndex every label selects the
      record the screen shows under it. */
  lemma ShownIndexSelectsShownLine(inbox: seq<Sms>, number: nat)
    requires 1 <= number <= Min(ShownCount, |inbox|)
    ensures ShowSmsInbox(inbox).Listing?
    ensures Shows(ShowSmsInbox(inbox).lines[number - 1], number, inbox[ShownIndex(|inbox|, number)])
    ensures |inbox| <= ShownCount ==> ShownIndex(|inbox|, number) == TypedIndex(number)
  {
  }

  /** A message just received is listed last on the inbox screen, as new. */
  lemma ReceivedIsListedLastAsNew(inbox: seq<Sms>, sms: Sms)
    requires !sms.read
    ensures var v := ShowSmsInbox(inbox + [sms]);
            v.Listing? && |v.lines| > 0 && v.lines[|v.lines| - 1].status == New &&
            Shows(v.lines[|v.lines| - 1], |v.lines|, sms)
  {
    var all := inbox + [sms];
    var v := ShowSmsInbox(all);
    assert ShownIndex(|all|, |v.lines|) == |inbox|;
  }

  /** `inbox` with record `index` marked read, or `inbox` itself when the
      index is out of range. */
  function MarkedRead(inbox: seq<Sms>, index: int): (r: seq<Sms>)
    ensures |r| == |inbox|
    ensures 0 <= index < |inbox| ==> r[index] == inbox[index].(read := true)
    ensures forall k :: 0 <= k < |inbox| && k != index ==> r[k] == inbox[k]
  {
    if 0 <= index < |inbox| then inbox[index := inbox[index].(read := true)] else inbox
  }

  /** `inbox` without record `index`, or `inbox` itself when the index is out
      of range. */
  function Deleted(inbox: seq<Sms>, index: int): (r: seq<Sms>)
    ensures 0 <= index < |inbox| ==> |r| == |inbox| - 1 && multiset(r) + multiset{inbox[index]} == multiset(inbox)
    ensures 0 <= index < |inbox| ==> forall k :: 0 <= k < |r| ==> r[k] == inbox[if k < index then k else k + 1]
    ensures !(0 <= index < |inbox|) ==> r == inbox
  {
    if 0 <= index < |inbox| then
      assert inbox == inbox[..index] + [inbox[index]] + inbox[index + 1..];
      inbox[..index] + inbox[index + 1..]
    else inbox
  }

  /** Marking a record read twice is marking it once, and only ever sets flags. */
  lemma MarkedReadIdempotent(inbox: seq<Sms>, index: int)
    ensures MarkedRead(MarkedRead(inbox, index), index) == MarkedRead(inbox, index)
    ensures forall k :: 0 <= k < |inbox| && !MarkedRead(inbox, index)[k].read ==> !inbox[k].read
  {
  }

  /** The phone's state. `alertCount` counts every message ever received and is
      never decremented, so it bounds the inbox size. */
  class SmsReceiver {
    const phoneNumber: string
    var receivedSms: seq<Sms>
    var alertCount: nat

    ghost predicate Valid()
      reads this
    {
      |receivedSms| <= alertCount
    }

    constructor (phoneNumber: string)
      ensures Valid()
      ensures this.phoneNumber == phoneNumber && receivedSms == [] && alertCount == 0
    {
      this.phoneNumber := phoneNumber;
      receivedSms := [];
      alertCount := 0;
    }

    /** Stores an arriving message, unread, at the end of the inbox. */
    method ReceiveSms(message: string, sender: string, timestamp: int)
      requires Valid()
      modifies this
      ensures Valid()
      ensures receivedSms == old(receivedSms) + [Sms(timestamp, sender, message, false)]
      ensures alertCount == old(alertCount) + 1
    {
      receivedSms := receivedSms + [Sms(timestamp, sender, message, false)];
      alertCount := alertCount + 1;
    }

    /** Marks record `index` read; an index out of range changes nothing. */
    method MarkAsRead(index: int) returns (marked: bool)
      requires Valid()
      modifies this`receivedSms
      ensures Valid()
      ensures marked <==> 0 <= index < |old(receivedSms)|
      ensures receivedSms == MarkedRead(old(receivedSms), index)
    {
      marked := 0 <= index < |receivedSms|;
      if marked {
        receivedSms := receivedSms[index := receivedSms[index].(read := true)];
      }
    }

    /** The delete step of the phone's menu (the index is the typed label
        minus one): removes record `index` when it is in range. */
    method DeleteMessage(index: int) returns (deleted: bool)
      requires Valid()
      modifies this`receivedSms
      ensures Valid()
      ensures deleted <==> 0 <= index < |old(receivedSms)|
      ensures receivedSms == Deleted(old(receivedSms), index)
    {
      deleted := false;
      if receivedSms != [] {
        if 0 <= index < |receivedSms| {
          receivedSms := receivedSms[..index] + receivedSms[index + 1..];
          deleted := true;
        }
      }
    }
  }
}
