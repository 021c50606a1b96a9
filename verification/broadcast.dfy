/**
 * The pure part of the broadcast submit handler (src/pages/index.tsx):
 * `destinationNumbers.split("\n")` and the `POST /send` body built for each
 * resulting line.
 */
module Broadcast {
  import opened Gateway

  /** The broadcast form (`broadcastFormData`). */
  datatype BroadcastForm = BroadcastForm(deviceId: string, messageTemplate: string, destinationNumbers: string)

  /** The field a change event names (the device select and the two text areas). */
  datatype BroadcastField = DeviceIdField | MessageTemplateField | DestinationNumbersField

  /** `{ ...prevState, [name]: value }`: the form with one field replaced. */
  function WithField(form: BroadcastForm, field: BroadcastField, value: string): BroadcastForm {
    match field
    case DeviceIdField => form.(deviceId := value)
    case MessageTemplateField => form.(messageTemplate := value)
    case DestinationNumbersField => form.(destinationNumbers := value)
  }

  /** The number of newline characters in `s`. */
  function Newlines(s: string): nat {
    multiset(s)['\n']
  }

  /**
   * `s.split("\n")`: the pieces between newlines, in order; the empty text
   * and a trailing newline both give an empty piece.
   */
  function SplitLines(s: string): (lines: seq<string>)
    ensures |lines| >= 1
    ensures forall i :: 0 <= i < |lines| ==> '\n' !in lines[i]
  {
    if s == [] then [""]
    else
      var rest := SplitLines(s[1..]);
      if s[0] == '\n' then [""] + rest
      else [[s[0]] + rest[0]] + rest[1..]
  }

  /** `lines.join("\n")`, the inverse of SplitLines. */
  function JoinLines(lines: seq<string>): string
    requires |lines| >= 1
  {
    if |lines| == 1 then lines[0] else lines[0] + "\n" + JoinLines(lines[1..])
  }

  /** Splitting keeps every character other than the separators: joining the lines gives the text back. */
  lemma {:induction false} JoinSplit(s: string)
    ensures JoinLines(SplitLines(s)) == s
  {
    if s != [] {
      var rest := SplitLines(s[1..]);
      JoinSplit(s[1..]);
      if s[0] == '\n' {
        assert SplitLines(s)[1..] == rest;
        assert s == "\n" + s[1..];
      } else {
        var lines := SplitLines(s);
        assert lines[1..] == rest[1..];
        if |rest| == 1 {
          assert s == [s[0]] + s[1..];
        } else {
          assert JoinLines(rest) == rest[0] + "\n" + JoinLines(rest[1..]);
          assert s == [s[0]] + s[1..];
          assert JoinLines(lines) == [s[0]] + rest[0] + "\n" + JoinLines(rest[1..]);
        }
      }
    }
  }

  /** Splitting a line without newlines in front of a text extends the first piece only. */
  lemma {:induction false} SplitPrefix(a: string, t: string)
    requires '\n' !in a
    ensures SplitLines(a + t) == [a + SplitLines(t)[0]] + SplitLines(t)[1..]
  {
    if a != [] {
      assert (a + t)[0] == a[0];
      assert (a + t)[1..] == a[1..] + t;
      SplitPrefix(a[1..], t);
      assert [a[0]] + (a[1..] + SplitLines(t)[0]) == a + SplitLines(t)[0];
    } else {
      assert a + t == t;
      assert a + SplitLines(t)[0] == SplitLines(t)[0];
    }
  }

  /** Lines without newlines survive a join and a split unchanged. */
  lemma {:induction false} SplitJoin(lines: seq<string>)
    requires |lines| >= 1
    requires forall i :: 0 <= i < |lines| ==> '\n' !in lines[i]
    ensures SplitLines(JoinLines(lines)) == lines
  {
    if |lines| == 1 {
      SplitPrefix(lines[0], "");
      assert lines[0] + "" == lines[0];
    } else {
      var tail := JoinLines(lines[1..]);
      SplitJoin(lines[1..]);
      assert JoinLines(lines) == lines[0] + ("\n" + tail);
      SplitPrefix(lines[0], "\n" + tail);
      assert ("\n" + tail)[1..] == tail;
      assert lines[0] + "" == lines[0];
      assert lines == [lines[0]] + lines[1..];
    }
  }

  /** One line per newline plus one: blank lines are kept. */
  lemma {:induction false} LineCount(s: string)
    ensures |SplitLines(s)| == Newlines(s) + 1
  {
    if s != [] {
      LineCount(s[1..]);
      assert s == [s[0]] + s[1..];
      assert multiset(s) == multiset([s[0]]) + multiset(s[1..]);
    }
  }

  /** The `POST /send` body for one line of the destination text. */
  function Payload(form: BroadcastForm, line: string): SendPayload {
    SendPayload(form.deviceId, line, "person", form.messageTemplate)
  }

  /** The bodies the submit handler posts, one per line, in the order of the lines. */
  function SendPayloads(form: BroadcastForm): (ps: seq<SendPayload>)
    ensures |ps| == Newlines(form.destinationNumbers) + 1
    ensures forall i :: 0 <= i < |ps| ==>
      ps[i].deviceId == form.deviceId && ps[i].kind == "person" && ps[i].text == form.messageTemplate
  {
    var lines := SplitLines(form.destinationNumbers);
    LineCount(form.destinationNumbers);
    seq(|lines|, i requires 0 <= i < |lines| => Payload(form, lines[i]))
  }

  function Destinations(ps: seq<SendPayload>): (ds: seq<string>)
    ensures |ds| == |ps|
  {
    seq(|ps|, i requires 0 <= i < |ps| => ps[i].destination)
  }

  /** The destinations posted are the lines of the destination text, in order. */
  lemma DestinationsAreLines(form: BroadcastForm)
    ensures Destinations(SendPayloads(form)) == SplitLines(form.destinationNumbers)
  {
  }

  /**
   * The destinations are exactly the raw lines: joined with newlines they give
   * back the text, so no line is dropped, merged, trimmed, normalised or
   * deduplicated.
   */
  lemma PayloadsKeepText(form: BroadcastForm)
    ensures var ds := Destinations(SendPayloads(form));
            |ds| >= 1 && JoinLines(ds) == form.destinationNumbers
  {
    DestinationsAreLines(form);
    JoinSplit(form.destinationNumbers);
  }

  /** A repeated local number is posted twice and as typed: no deduplication and no +62 normalisation. */
  lemma RepeatedNumbersAreSentTwice()
    ensures var ps := SendPayloads(BroadcastForm("dev-1", "Halo", "081111\n081111\n082222"));
            Destinations(ps) == ["081111", "081111", "082222"]
  {
    var lines := ["081111", "081111", "082222"];
    assert JoinLines(lines) == "081111\n081111\n082222" by {
      assert JoinLines(lines[2..]) == "082222";
      assert JoinLines(lines[1..]) == "081111\n082222";
    }
    SplitJoin(lines);
    DestinationsAreLines(BroadcastForm("dev-1", "Halo", "081111\n081111\n082222"));
  }
}
