/**
 * Sending the response out: as text messages to phone numbers and as
 * tweets mentioning Twitter handles. Every call to the outside world
 * (the console, the SMS gateway, opening the credentials file, posting a
 * status) is an event appended to a log, so the order of what is validated
 * and what is sent can be stated and proved.
 */
module Export {
  import opened Numerals
  import opened Patterns

  /** What the scripts do to the world outside, in the order they do it. */
  datatype Event =
    | Output(text: string)                          // a line written to the console
    | Sms(phoneNumber: string, message: string)     // `sns.publish(PhoneNumber=..., Message=...)`
    | CredentialsOpened                             // `open('twitter-creds.json')`
    | Status(text: string)                          // `client.update_status(status=...)`

  /** The world the scripts act on, seen as the log of everything done to it. */
  class Effects {
    var log: seq<Event>

    constructor ()
      ensures log == []
    {
      log := [];
    }

    method WriteLine(text: string)
      modifies this
      ensures log == old(log) + [Output(text)]
    {
      log := log + [Output(text)];
    }

    method Publish(phoneNumber: string, message: string)
      modifies this
      ensures log == old(log) + [Sms(phoneNumber, message)]
    {
      log := log + [Sms(phoneNumber, message)];
    }

    method OpenCredentials()
      modifies this
      ensures log == old(log) + [CredentialsOpened]
    {
      log := log + [CredentialsOpened];
    }

    method UpdateStatus(text: string)
      modifies this
      ensures log == old(log) + [Status(text)]
    {
      log := log + [Status(text)];
    }
  }

  const BadPhoneMessage := "At least one phone number has been formatted incorrectly. Phone numbers must contain exactly ten numbers."
  const BadHandleMessage := "At least one Twitter handle has been formatted incorrectly."

  /** The body of `^\d{10}$`. */
  predicate TenDigits(s: string) {
    |s| == 10 && AllDigits(s)
  }

  /** The body of `^[\w]{1,15}$`. */
  predicate HandleShape(s: string) {
    1 <= |s| <= 15 && forall i :: 0 <= i < |s| ==> IsWordChar(s[i])
  }

  predicate IsPhoneNumber(s: string) {
    MatchesAnchored(s, TenDigits)
  }

  predicate IsTwitterHandle(s: string) {
    MatchesAnchored(s, HandleShape)
  }

  predicate AllPhoneNumbers(phones: seq<string>) {
    forall i :: 0 <= i < |phones| ==> IsPhoneNumber(phones[i])
  }

  predicate AllTwitterHandles(handles: seq<string>) {
    forall i :: 0 <= i < |handles| ==> IsTwitterHandle(handles[i])
  }

  /** One text per number, in list order, each to the number behind the `+1` country code. */
  function SmsBatch(phones: seq<string>, response: string): (batch: seq<Event>)
  {
    if phones == [] then []
    else SmsBatch(phones[..|phones| - 1], response) + [Sms("+1" + phones[|phones| - 1], response)]
  }

  /**
   * What `send_texts` does: nothing without phone numbers; one console line
   * and nothing sent if any number is malformed; otherwise the batch.
   */
  function TextEvents(phones: seq<string>, response: string): (events: seq<Event>)
  {
    if phones == [] then []
    else if !AllPhoneNumbers(phones) then [Output(BadPhoneMessage)]
    else SmsBatch(phones, response)
  }

  /** Two posts per handle, in list order: the first part of the response, then the second. */
  function StatusBatch(handles: seq<string>, part1: string, part2: string): (batch: seq<Event>)
  {
    if handles == [] then []
    else
      var h := handles[|handles| - 1];
      StatusBatch(handles[..|handles| - 1], part1, part2) + [Status("@" + h + " " + part1), Status("@" + h + " " + part2)]
  }

  /**
   * What `send_tweets` does: nothing without handles; one console line and
   * nothing else if any handle is malformed; otherwise the credentials file
   * is opened and then every handle gets its two posts.
   */
  function TweetEvents(handles: seq<string>, part1: string, part2: string): (events: seq<Event>)
  {
    if handles == [] then []
    else if !AllTwitterHandles(handles) then [Output(BadHandleMessage)]
    else [CredentialsOpened] + StatusBatch(handles, part1, part2)
  }

  /**
   * `send_texts`. An absent `--phone` flag and an empty one are both the
   * empty sequence here, as `if args.phone:` treats them alike. A malformed
   * number ends the call, not the program.
   */
  method SendTexts(fx: Effects, phones: seq<string>, response: string)
    modifies fx
    ensures fx.log == old(fx.log) + TextEvents(phones, response)
  {
    if phones != [] {
      var i := 0;
      while i < |phones|
        invariant 0 <= i <= |phones|
        invariant forall k :: 0 <= k < i ==> IsPhoneNumber(phones[k])
        invariant fx.log == old(fx.log)
      {
        if !IsPhoneNumber(phones[i]) {
          fx.WriteLine(BadPhoneMessage);
          return;
        }
        i := i + 1;
      }
      var j := 0;
      while j < |phones|
        invariant 0 <= j <= |phones|
        invariant fx.log == old(fx.log) + SmsBatch(phones[..j], response)
      {
        assert phones[..j + 1][..j] == phones[..j];
        fx.Publish("+1" + phones[j], response);
        j := j + 1;
      }
      assert phones[..|phones|] == phones;
    }
  }

  /**
   * `send_tweets`. Every handle is checked before the credentials file is
   * opened; a malformed handle ends the call.
   */
  method SendTweets(fx: Effects, handles: seq<string>, part1: string, part2: string)
    modifies fx
    ensures fx.log == old(fx.log) + TweetEvents(handles, part1, part2)
  {
    if handles != [] {
      var i := 0;
      while i < |handles|
        invariant 0 <= i <= |handles|
        invariant forall k :: 0 <= k < i ==> IsTwitterHandle(handles[k])
        invariant fx.log == old(fx.log)
      {
        if !IsTwitterHandle(handles[i]) {
          assert !AllTwitterHandles(handles);
          fx.WriteLine(BadHandleMessage);
          return;
        }
        i := i + 1;
      }
      assert TweetEvents(handles, part1, part2) == [CredentialsOpened] + StatusBatch(handles, part1, part2);
      fx.OpenCredentials();
      PostStatuses(fx, handles, part1, part2);
    }
  }

  /** The posting loop of `send_tweets`: both parts to each handle in turn. */
  method PostStatuses(fx: Effects, handles: seq<string>, part1: string, part2: string)
    modifies fx
    ensures fx.log == old(fx.log) + StatusBatch(handles, part1, part2)
  {
    var j := 0;
    while j < |handles|
      invariant 0 <= j <= |handles|
      invariant fx.log == old(fx.log) + StatusBatch(handles[..j], part1, part2)
    {
      var handle := handles[j];
      var message1 := "@" + handle + " " + part1;
      var message2 := "@" + handle + " " + part2;
      assert handles[..j + 1][..j] == handles[..j];
      assert StatusBatch(handles[..j + 1], part1, part2) ==
        StatusBatch(handles[..j], part1, part2) + [Status(message1), Status(message2)];
      fx.UpdateStatus(message1);
      fx.UpdateStatus(message2);
      j := j + 1;
    }
    assert handles[..|handles|] == handles;
  }

  lemma {:induction false} SmsBatchAt(phones: seq<string>, response: string)
    ensures |SmsBatch(phones, response)| == |phones|
    ensures forall i :: 0 <= i < |phones| ==> SmsBatch(phones, response)[i] == Sms("+1" + phones[i], response)
  {
    if phones != [] {
      SmsBatchAt(phones[..|phones| - 1], response);
    }
  }

  /**
   * If any number is malformed, no text is sent at all, not even to the
   * well-formed numbers; only the complaint is written.
   */
  lemma TextsAllOrNothing(phones: seq<string>, response: string, bad: int)
    requires 0 <= bad < |phones| && !IsPhoneNumber(phones[bad])
    ensures TextEvents(phones, response) == [Output(BadPhoneMessage)]
  {
  }

  /**
   * Otherwise exactly one text per number, in list order, to `+1` and the
   * number, each with the identical body; and none without numbers.
   */
  lemma TextsOnePerNumber(phones: seq<string>, response: string)
    requires AllPhoneNumbers(phones)
    ensures |TextEvents(phones, response)| == |phones|
    ensures forall i :: 0 <= i < |phones| ==> TextEvents(phones, response)[i] == Sms("+1" + phones[i], response)
  {
    SmsBatchAt(phones, response);
  }

  lemma {:induction false} StatusBatchAt(handles: seq<string>, part1: string, part2: string)
    ensures |StatusBatch(handles, part1, part2)| == 2 * |handles|
    ensures forall i :: 0 <= i < |handles| ==>
      StatusBatch(handles, part1, part2)[2 * i] == Status("@" + handles[i] + " " + part1) &&
      StatusBatch(handles, part1, part2)[2 * i + 1] == Status("@" + handles[i] + " " + part2)
  {
    if handles != [] {
      StatusBatchAt(handles[..|handles| - 1], part1, part2);
    }
  }

  /**
   * The credentials file is opened only when there are handles and all of
   * them are well formed, and then once, first: every post comes after it.
   */
  lemma {:induction false} TweetsValidateFirst(handles: seq<string>, part1: string, part2: string)
    ensures CredentialsOpened in TweetEvents(handles, part1, part2) <==> handles != [] && AllTwitterHandles(handles)
    ensures forall i :: 0 <= i < |TweetEvents(handles, part1, part2)| && TweetEvents(handles, part1, part2)[i].Status? ==>
      0 < i && TweetEvents(handles, part1, part2)[0] == CredentialsOpened
    ensures forall i :: 0 <= i < |TweetEvents(handles, part1, part2)| && TweetEvents(handles, part1, part2)[i] == CredentialsOpened ==>
      i == 0
  {
    StatusBatchAt(handles, part1, part2);
    var batch := StatusBatch(handles, part1, part2);
    assert forall k :: 0 <= k < |batch| ==> batch[k].Status? by {
      forall k | 0 <= k < |batch| ensures batch[k].Status? {
        assert batch[2 * (k / 2)].Status? && batch[2 * (k / 2) + 1].Status?;
      }
    }
  }

  /**
   * Otherwise the log holds the credentials, then exactly two posts per
   * handle, in handle order: `@h ` and the first part, then `@h ` and the
   * second.
   */
  lemma TweetsTwoPerHandle(handles: seq<string>, part1: string, part2: string)
    requires handles != [] && AllTwitterHandles(handles)
    ensures |TweetEvents(handles, part1, part2)| == 1 + 2 * |handles|
    ensures forall i :: 0 <= i < |handles| ==>
      TweetEvents(handles, part1, part2)[1 + 2 * i] == Status("@" + handles[i] + " " + part1) &&
      TweetEvents(handles, part1, part2)[2 + 2 * i] == Status("@" + handles[i] + " " + part2)
  {
    StatusBatchAt(handles, part1, part2);
  }

}
