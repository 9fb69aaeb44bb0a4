/** The booking notification message built by `sendBookingEmail`
    (utils/mailer.js). Handing the message to the mail transport is not part
    of this model; the transport's outcome is a parameter of the booking
    handler instead. */
module Mailer {
  import opened Http

  /** The five booking properties the handler passes to the mailer. */
  datatype BookingDetails = BookingDetails(
    name: Field, email: Field, phone: Field, location: Field, message: Field)

  /** The `mailOptions` object handed to the transport. `from` is the raw
      value of the submitter's `email` property. */
  datatype MailOptions = MailOptions(from: Field, to: string, subject: string, text: string)

  const SubjectPrefix: string := "New Booking from "

  /** The labels of the five lines of the message text, in order. */
  const Labels: seq<string> := ["Name: ", "Email: ", "Phone: ", "Location: ", "Message: "]

  /** The interpolated values of the five properties, in label order. */
  function Values(b: BookingDetails): seq<string>
  {
    [Interpolate(b.name), Interpolate(b.email), Interpolate(b.phone),
     Interpolate(b.location), Interpolate(b.message)]
  }

  /** Reference description of the text: label i followed by value i. */
  function LabelledLines(b: BookingDetails): (ls: seq<string>)
    ensures |ls| == 5
  {
    var vs := Values(b);
    seq(5, i requires 0 <= i < 5 => Labels[i] + vs[i])
  }

  /** Lines joined by a single newline, with no newline after the last one. */
  function JoinLines(ls: seq<string>): string
  {
    if |ls| == 0 then ""
    else if |ls| == 1 then ls[0]
    else ls[0] + "\n" + JoinLines(ls[1..])
  }

  /** Index of the first newline in `s`. */
  function FirstNewline(s: string): (k: nat)
    requires '\n' in s
    ensures k < |s| && s[k] == '\n' && '\n' !in s[..k]
  {
    if s[0] == '\n' then 0
    else
      var k := FirstNewline(s[1..]);
      assert s[..k + 1] == [s[0]] + s[1..][..k];
      k + 1
  }

  /** The text cut at every newline (the inverse of JoinLines on lines
      without newlines). */
  function SplitLines(s: string): (ls: seq<string>)
    ensures |ls| >= 1
    decreases |s|
  {
    if '\n' !in s then [s]
    else
      var k := FirstNewline(s);
      [s[..k]] + SplitLines(s[k + 1..])
  }

  /** The text cut at its first `n` newlines: `n + 1` pieces, the last one
      the rest of the text, newlines included. */
  function CutLines(s: string, n: nat): (r: Option<seq<string>>)
    ensures r.Some? ==> |r.value| == n + 1
    decreases n
  {
    if n == 0 then Some([s])
    else if '\n' !in s then None
    else
      var k := FirstNewline(s);
      match CutLines(s[k + 1..], n - 1)
      case None => None
      case Some(rest) => Some([s[..k]] + rest)
  }

  /** The text back to the five field values: four single lines and the rest
      of the text, carrying the five labels in order. */
  function ParseBookingText(text: string): Option<seq<string>>
  {
    match CutLines(text, 4)
    case None => None
    case Some(ls) =>
      if forall i :: 0 <= i < 5 ==> Labels[i] <= ls[i]
      then Some(seq(5, i requires 0 <= i < 5 => ls[i][|Labels[i]|..]))
      else None
  }

  /** The message for a booking, sent to the configured `mailbox`. */
  function BookingEmail(b: BookingDetails, mailbox: string): (m: MailOptions)
    ensures m.from == b.email
    ensures m.to == mailbox
    ensures SubjectPrefix <= m.subject && m.subject[|SubjectPrefix|..] == Interpolate(b.name)
    ensures m.text == JoinLines(LabelledLines(b))
  {
    var text := "Name: " + Interpolate(b.name) + "\nEmail: " + Interpolate(b.email)
      + "\nPhone: " + Interpolate(b.phone) + "\nLocation: " + Interpolate(b.location)
      + "\nMessage: " + Interpolate(b.message);
    LabelledText(b);
    MailOptions(b.email, mailbox, SubjectPrefix + Interpolate(b.name), text)
  }

  lemma LabelledText(b: BookingDetails)
    ensures JoinLines(LabelledLines(b)) ==
      "Name: " + Interpolate(b.name) + "\nEmail: " + Interpolate(b.email)
      + "\nPhone: " + Interpolate(b.phone) + "\nLocation: " + Interpolate(b.location)
      + "\nMessage: " + Interpolate(b.message)
  {
    var n, e, p, l, m := Interpolate(b.name), Interpolate(b.email), Interpolate(b.phone),
                         Interpolate(b.location), Interpolate(b.message);
    assert LabelledLines(b) == ["Name: " + n, "Email: " + e, "Phone: " + p, "Location: " + l, "Message: " + m];
    TemplateText(n, e, p, l, m);
  }

  /** The template literal of the message text is the join of its five
      labelled lines. */
  lemma TemplateText(n: string, e: string, p: string, l: string, m: string)
    ensures JoinLines(["Name: " + n, "Email: " + e, "Phone: " + p, "Location: " + l, "Message: " + m]) ==
      "Name: " + n + "\nEmail: " + e + "\nPhone: " + p + "\nLocation: " + l + "\nMessage: " + m
  {
    JoinFive("Name: ", "Email: ", "Phone: ", "Location: ", "Message: ", n, e, p, l, m);
    assert "\n" + "Email: " == "\nEmail: ";
    assert "\n" + "Phone: " == "\nPhone: ";
    assert "\n" + "Location: " == "\nLocation: ";
    assert "\n" + "Message: " == "\nMessage: ";
  }

  /** Five labelled lines joined, written as one left-to-right concatenation. */
  lemma JoinFive(a: string, b: string, c: string, d: string, f: string,
                 n: string, e: string, p: string, l: string, m: string)
    ensures JoinLines([a + n, b + e, c + p, d + l, f + m]) ==
      a + n + ("\n" + b) + e + ("\n" + c) + p + ("\n" + d) + l + ("\n" + f) + m
  {
    var l0, l1, l2, l3, l4 := a + n, b + e, c + p, d + l, f + m;
    JoinStep(l3, [l4]);
    assert [l3] + [l4] == [l3, l4];
    JoinStep(l2, [l3, l4]);
    assert [l2] + [l3, l4] == [l2, l3, l4];
    JoinStep(l1, [l2, l3, l4]);
    assert [l1] + [l2, l3, l4] == [l1, l2, l3, l4];
    JoinStep(l0, [l1, l2, l3, l4]);
    assert [l0] + [l1, l2, l3, l4] == [l0, l1, l2, l3, l4];
  }

  /** Joining one more line in front adds it and a newline. */
  lemma JoinStep(x: string, rest: seq<string>)
    requires |rest| >= 1
    ensures JoinLines([x] + rest) == x + "\n" + JoinLines(rest)
  {
    assert ([x] + rest)[1..] == rest;
  }

  /** The first newline of `a + "\n" + rest` is the one after `a`. */
  lemma FirstNewlineAfter(a: string, rest: string)
    requires '\n' !in a
    ensures '\n' in a + "\n" + rest
    ensures FirstNewline(a + "\n" + rest) == |a|
    ensures (a + "\n" + rest)[..|a|] == a && (a + "\n" + rest)[|a| + 1..] == rest
  {
    var s := a + "\n" + rest;
    assert s[|a|] == '\n';
    var k := FirstNewline(s);
    assert k == |a|;
    assert s[..k] == a;
    assert s[k + 1..] == rest;
  }

  /** Cutting `a + "\n" + rest` gives `a` and then the lines of `rest`. */
  lemma SplitAfterLine(a: string, rest: string)
    requires '\n' !in a
    ensures SplitLines(a + "\n" + rest) == [a] + SplitLines(rest)
  {
    FirstNewlineAfter(a, rest);
  }

  /** Cutting `a + "\n" + rest` at `n + 1` newlines gives `a` and then
      `rest` cut at `n` newlines. */
  lemma CutAfterLine(a: string, rest: string, n: nat)
    requires '\n' !in a
    ensures CutLines(rest, n).Some? ==>
              CutLines(a + "\n" + rest, n + 1) == Some([a] + CutLines(rest, n).value)
  {
    FirstNewlineAfter(a, rest);
  }

  /** Cutting a joined text at one newline fewer than it has lines gives the
      lines back, whatever the last line holds. */
  lemma {:induction false} CutJoin(ls: seq<string>)
    requires |ls| >= 1
    requires forall i :: 0 <= i < |ls| - 1 ==> '\n' !in ls[i]
    ensures CutLines(JoinLines(ls), |ls| - 1) == Some(ls)
  {
    if |ls| > 1 {
      var tail := ls[1..];
      assert ls == [ls[0]] + tail;
      assert forall i :: 0 <= i < |tail| - 1 ==> tail[i] == ls[i + 1];
      CutJoin(tail);
      CutJoinStep(ls[0], tail);
    } else {
      assert ls == [ls[0]];
    }
  }

  /** One more single line in front of a joined text that cuts back into
      its lines still cuts back into its lines. */
  lemma CutJoinStep(x: string, tail: seq<string>)
    requires '\n' !in x && |tail| >= 1
    requires CutLines(JoinLines(tail), |tail| - 1) == Some(tail)
    ensures CutLines(JoinLines([x] + tail), |tail|) == Some([x] + tail)
  {
    var rest, n := JoinLines(tail), |tail| - 1;
    JoinStep(x, tail);
    CutAfterLine(x, rest, n);
    assert CutLines(x + "\n" + rest, n + 1) == Some([x] + tail);
  }

  /** Splitting undoes joining when no line holds a newline. */
  lemma {:induction false} SplitJoin(ls: seq<string>)
    requires |ls| >= 1
    requires forall i :: 0 <= i < |ls| ==> '\n' !in ls[i]
    ensures SplitLines(JoinLines(ls)) == ls
  {
    if |ls| > 1 {
      SplitJoin(ls[1..]);
      SplitAfterLine(ls[0], JoinLines(ls[1..]));
      assert [ls[0]] + ls[1..] == ls;
    }
  }

  /** No interpolated field value contains a newline. */
  predicate SingleLineValues(b: BookingDetails)
  {
    forall i :: 0 <= i < 5 ==> '\n' !in Values(b)[i]
  }

  /** When no value holds a newline, the text consists of exactly the five
      labelled lines, in order. */
  lemma BookingTextLines(b: BookingDetails, mailbox: string)
    requires SingleLineValues(b)
    ensures SplitLines(BookingEmail(b, mailbox).text) == LabelledLines(b)
  {
    var ls := LabelledLines(b);
    forall i | 0 <= i < |ls| ensures '\n' !in ls[i] {
      assert ls[i] == Labels[i] + Values(b)[i];
    }
    SplitJoin(ls);
  }

  /** A text that cuts into the five labelled lines parses to their values. */
  lemma ParseLabelled(text: string, ls: seq<string>, vs: seq<string>)
    requires |ls| == 5 && |vs| == 5
    requires forall i :: 0 <= i < 5 ==> ls[i] == Labels[i] + vs[i]
    requires CutLines(text, 4) == Some(ls)
    ensures ParseBookingText(text) == Some(vs)
  {
    forall i | 0 <= i < 5 ensures Labels[i] <= ls[i] && ls[i][|Labels[i]|..] == vs[i] {
      assert ls[i] == Labels[i] + vs[i];
    }
    assert seq(5, i requires 0 <= i < 5 => ls[i][|Labels[i]|..]) == vs;
  }

  /** Round trip: the values of all five fields can be read back from the
      text when none of name, email, phone and location holds a newline; the
      message may span several lines. */
  lemma BookingTextRoundTrip(b: BookingDetails, mailbox: string)
    requires forall i :: 0 <= i < 4 ==> '\n' !in Values(b)[i]
    ensures ParseBookingText(BookingEmail(b, mailbox).text) == Some(Values(b))
  {
    var ls := LabelledLines(b);
    LeadingLinesSingle(b);
    CutJoin(ls);
    ParseLabelled(JoinLines(ls), ls, Values(b));
  }

  /** The first four labelled lines hold no newline when their values hold none. */
  lemma LeadingLinesSingle(b: BookingDetails)
    requires forall i :: 0 <= i < 4 ==> '\n' !in Values(b)[i]
    ensures forall i :: 0 <= i < 4 ==> '\n' !in LabelledLines(b)[i]
  {
    forall i | 0 <= i < 4 ensures '\n' !in LabelledLines(b)[i] {
      assert LabelledLines(b)[i] == Labels[i] + Values(b)[i];
    }
  }
}
