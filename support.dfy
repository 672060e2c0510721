/** The support page (app/support/page.tsx): the donation and volunteer forms and the
    per-dog love counters and message lists. */
module Support {
  import opened Wrappers
  import opened Text
  import opened Sequences

  type DogId = int

  datatype VolunteerForm = VolunteerForm(name: string, email: string, phone: string, interests: string)

  const EmptyVolunteer := VolunteerForm("", "", "", "")

  /** The four inputs of the volunteer form. */
  datatype VolunteerField = Name | Email | Phone | Interests

  /** `{...volunteerForm, [field]: value}` for one of the four inputs. */
  function WithVolunteerField(f: VolunteerForm, field: VolunteerField, value: string): (r: VolunteerForm)
    ensures r.name == (if field == Name then value else f.name)
    ensures r.email == (if field == Email then value else f.email)
    ensures r.phone == (if field == Phone then value else f.phone)
    ensures r.interests == (if field == Interests then value else f.interests)
  {
    match field
    case Name => f.(name := value)
    case Email => f.(email := value)
    case Phone => f.(phone := value)
    case Interests => f.(interests := value)
  }

  /** The count a dog card shows, `dogLoves[id] || 0`. */
  function Loves(m: map<DogId, nat>, dog: DogId): nat {
    if dog in m then m[dog] else 0
  }

  /** The messages of a dog, `dogMessages[id] || []`. */
  function Messages(m: map<DogId, seq<string>>, dog: DogId): seq<string> {
    if dog in m then m[dog] else []
  }

  /** `sendLove(dog)`'s new counters. */
  function LovedOnce(m: map<DogId, nat>, dog: DogId): (r: map<DogId, nat>)
    ensures Loves(r, dog) == Loves(m, dog) + 1
    ensures forall d :: d != dog ==> Loves(r, d) == Loves(m, d)
    ensures r.Keys == m.Keys + {dog}
  {
    m[dog := Loves(m, dog) + 1]
  }

  /** The counters after a sequence of clicks, one `sendLove` per element. */
  function AfterClicks(m: map<DogId, nat>, clicks: seq<DogId>): map<DogId, nat>
    decreases |clicks|
  {
    if clicks == [] then m else AfterClicks(LovedOnce(m, clicks[0]), clicks[1..])
  }

  /** Every click is counted: a dog's count grows by the number of its clicks. */
  lemma {:induction false} ClicksCounted(m: map<DogId, nat>, clicks: seq<DogId>, dog: DogId)
    ensures Loves(AfterClicks(m, clicks), dog) == Loves(m, dog) + multiset(clicks)[dog]
    decreases |clicks|
  {
    if clicks != [] {
      ClicksCounted(LovedOnce(m, clicks[0]), clicks[1..], dog);
      assert clicks == [clicks[0]] + clicks[1..];
    }
  }

  /** `dogMessages[id].slice(-2)`: what a card shows, the latest two messages. */
  function RecentMessages(msgs: seq<string>): (r: seq<string>)
    ensures |r| <= 2 && (|r| == 2 || r == msgs)
    ensures |r| <= |msgs| && r == msgs[|msgs| - |r|..]
  {
    TakeLast(msgs, 2)
  }

  class SupportPage {
    var donationAmount: string
    var donationMessage: string
    var volunteerForm: VolunteerForm
    var dogLoves: map<DogId, nat>
    var dogMessages: map<DogId, seq<string>>
    var currentMessage: string
    var selectedDog: Option<DogId>

    constructor ()
      ensures donationAmount == "" && donationMessage == "" && volunteerForm == EmptyVolunteer
      ensures dogLoves == map[] && dogMessages == map[]
      ensures currentMessage == "" && selectedDog == None
    {
      donationAmount := "";
      donationMessage := "";
      volunteerForm := EmptyVolunteer;
      dogLoves := map[];
      dogMessages := map[];
      currentMessage := "";
      selectedDog := None;
    }

    /** The donation submit clears both of its fields. */
    method HandleDonation()
      modifies this
      ensures donationAmount == "" && donationMessage == ""
      ensures volunteerForm == old(volunteerForm) && dogLoves == old(dogLoves)
      ensures dogMessages == old(dogMessages) && currentMessage == old(currentMessage)
      ensures selectedDog == old(selectedDog)
    {
      donationAmount := "";
      donationMessage := "";
    }

    /** The volunteer submit clears all four of its fields. */
    method HandleVolunteer()
      modifies this
      ensures volunteerForm == EmptyVolunteer
      ensures donationAmount == old(donationAmount) && donationMessage == old(donationMessage)
      ensures dogLoves == old(dogLoves) && dogMessages == old(dogMessages)
      ensures currentMessage == old(currentMessage) && selectedDog == old(selectedDog)
    {
      volunteerForm := EmptyVolunteer;
    }

    /** A preset button or the amount input. */
    method SetDonationAmount(value: string)
      modifies this
      ensures donationAmount == value
      ensures donationMessage == old(donationMessage) && volunteerForm == old(volunteerForm)
      ensures dogLoves == old(dogLoves) && dogMessages == old(dogMessages)
      ensures currentMessage == old(currentMessage) && selectedDog == old(selectedDog)
    {
      donationAmount := value;
    }

    /** One more love for `dog`; every other dog's count stays as it was. */
    method SendLove(dog: DogId)
      modifies this
      ensures dogLoves == LovedOnce(old(dogLoves), dog)
      ensures Loves(dogLoves, dog) == Loves(old(dogLoves), dog) + 1
      ensures forall d :: d != dog ==> Loves(dogLoves, d) == Loves(old(dogLoves), d)
      ensures donationAmount == old(donationAmount) && donationMessage == old(donationMessage)
      ensures volunteerForm == old(volunteerForm) && dogMessages == old(dogMessages)
      ensures currentMessage == old(currentMessage) && selectedDog == old(selectedDog)
    {
      dogLoves := LovedOnce(dogLoves, dog);
    }

    /** The optional message of the donation form. */
    method SetDonationMessage(value: string)
      modifies this
      ensures donationMessage == value
      ensures donationAmount == old(donationAmount) && volunteerForm == old(volunteerForm)
      ensures dogLoves == old(dogLoves) && dogMessages == old(dogMessages)
      ensures currentMessage == old(currentMessage) && selectedDog == old(selectedDog)
    {
      donationMessage := value;
    }

    /** One of the volunteer inputs. */
    method SetVolunteerField(field: VolunteerField, value: string)
      modifies this
      ensures volunteerForm == WithVolunteerField(old(volunteerForm), field, value)
      ensures donationAmount == old(donationAmount) && donationMessage == old(donationMessage)
      ensures dogLoves == old(dogLoves) && dogMessages == old(dogMessages)
      ensures currentMessage == old(currentMessage) && selectedDog == old(selectedDog)
    {
      volunteerForm := WithVolunteerField(volunteerForm, field, value);
    }

    /** The message button of a card opens the message dialog for that dog. */
    method SelectDog(dog: DogId)
      modifies this
      ensures selectedDog == Some(dog)
      ensures donationAmount == old(donationAmount) && donationMessage == old(donationMessage)
      ensures volunteerForm == old(volunteerForm) && dogLoves == old(dogLoves)
      ensures dogMessages == old(dogMessages) && currentMessage == old(currentMessage)
    {
      selectedDog := Some(dog);
    }

    method SetCurrentMessage(value: string)
      modifies this
      ensures currentMessage == value
      ensures donationAmount == old(donationAmount) && donationMessage == old(donationMessage)
      ensures volunteerForm == old(volunteerForm) && dogLoves == old(dogLoves)
      ensures dogMessages == old(dogMessages) && selectedDog == old(selectedDog)
    {
      currentMessage := value;
    }

    /** A blank message changes nothing at all. Otherwise the trimmed message is
        appended to `dog`'s list, the other lists stay, and the dialog closes empty. */
    method SendMessage(dog: DogId)
      modifies this
      ensures IsBlank(old(currentMessage)) ==>
                dogMessages == old(dogMessages) && currentMessage == old(currentMessage)
                && selectedDog == old(selectedDog)
      ensures !IsBlank(old(currentMessage)) ==>
                && Messages(dogMessages, dog) == Messages(old(dogMessages), dog) + [Trim(old(currentMessage))]
                && (forall d :: d != dog ==> Messages(dogMessages, d) == Messages(old(dogMessages), d))
                && dogMessages.Keys == old(dogMessages.Keys) + {dog}
                && currentMessage == "" && selectedDog == None
      ensures donationAmount == old(donationAmount) && donationMessage == old(donationMessage)
      ensures volunteerForm == old(volunteerForm) && dogLoves == old(dogLoves)
    {
      if !IsBlank(currentMessage) {
        var sent := Trim(currentMessage);
        var updated := Messages(dogMessages, dog) + [sent];
        ghost var before := dogMessages;
        dogMessages := dogMessages[dog := updated];
        assert forall d :: d != dog ==> Messages(dogMessages, d) == Messages(before, d);
        currentMessage := "";
        selectedDog := None;
      }
    }

    /** Cancel closes the dialog and discards the draft. */
    method Cancel()
      modifies this
      ensures selectedDog == None && currentMessage == ""
      ensures donationAmount == old(donationAmount) && donationMessage == old(donationMessage)
      ensures volunteerForm == old(volunteerForm) && dogLoves == old(dogLoves)
      ensures dogMessages == old(dogMessages)
    {
      selectedDog := None;
      currentMessage := "";
    }
  }

  /** After a send, the card shows the new message last, after the one before it. */
  lemma RecentAfterSend(msgs: seq<string>, m: string)
    ensures RecentMessages(msgs + [m]) == (if |msgs| == 0 then [m] else [msgs[|msgs| - 1], m])
  {
    var s := msgs + [m];
    if |msgs| > 0 {
      assert s[|s| - 2..] == [msgs[|msgs| - 1], m];
    }
  }

  /** A sent message is never blank and has no white space at its ends. */
  lemma SentMessageIsTrimmed(message: string)
    requires !IsBlank(message)
    ensures Trim(message) != [] && !IsWhitespace(Trim(message)[0])
    ensures !IsWhitespace(Trim(message)[|Trim(message)| - 1])
  {
    var r := Trim(message);
    var i :| TrimmedAt(message, r, i);
  }
}
