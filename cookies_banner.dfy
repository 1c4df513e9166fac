/** The cookie notice (CookiesBanner): shown once per browser until the visitor
    answers; the answer is kept in the browser's local storage. */
module CookiesBanner {
  /** The storage key of the answer. */
  const ConsentKey: string := "cookiesAccepted"

  /** `!localStorage.getItem('cookiesAccepted')`: no answer stored, or an
      empty one. */
  predicate Unanswered(storage: map<string, string>) {
    ConsentKey !in storage || storage[ConsentKey] == ""
  }

  class Banner {
    /** The browser's local storage; it outlives the banner. */
    var storage: map<string, string>
    var isVisible: bool
    /** The one-second timer set on mount that will show the banner. */
    var showPending: bool

    /** A fresh page: the banner starts hidden. */
    constructor (storage: map<string, string>)
      ensures this.storage == storage && !isVisible && !showPending
    {
      this.storage := storage;
      isVisible := false;
      showPending := false;
    }

    /** The mount effect: schedule the banner when no answer is stored. */
    method Mount()
      modifies this`showPending
      ensures showPending == Unanswered(storage)
    {
      showPending := Unanswered(storage);
    }

    /** The timer fires. */
    method TimerFires()
      requires showPending
      modifies this`isVisible, this`showPending
      ensures isVisible && !showPending
    {
      isVisible := true;
      showPending := false;
    }

    /** `handleAccept`: store "true" under the key, and nothing else; hide. */
    method Accept()
      requires isVisible
      modifies this`storage, this`isVisible
      ensures storage == old(storage)[ConsentKey := "true"] && !isVisible
      ensures !Unanswered(storage)
      ensures forall k :: k != ConsentKey ==> (k in storage <==> k in old(storage)) && (k in storage ==> storage[k] == old(storage)[k])
    {
      storage := storage[ConsentKey := "true"];
      isVisible := false;
    }

    /** `handleDecline`: store "false" under the key, and nothing else; hide. */
    method Decline()
      requires isVisible
      modifies this`storage, this`isVisible
      ensures storage == old(storage)[ConsentKey := "false"] && !isVisible
      ensures !Unanswered(storage)
      ensures forall k :: k != ConsentKey ==> (k in storage <==> k in old(storage)) && (k in storage ==> storage[k] == old(storage)[k])
    {
      storage := storage[ConsentKey := "false"];
      isVisible := false;
    }
  }

  /** Any stored answer, "false" included, keeps the banner from being
      scheduled on the next page; the banner is scheduled exactly when the
      stored value is missing or empty. */
  lemma AnswerSuppressesBanner(storage: map<string, string>, answer: string)
    ensures answer != "" ==> !Unanswered(storage[ConsentKey := answer])
    ensures Unanswered(storage) <==> ConsentKey !in storage || storage[ConsentKey] == ""
  {
  }

  /** A visit: load a page with the stored answers, mount, wait for the timer
      when one was set, then accept or decline. The next page load schedules
      nothing, and only the consent key differs from before. */
  method Visit(storage: map<string, string>, accept: bool) returns (after: map<string, string>)
    ensures !Unanswered(after)
    ensures forall k :: k != ConsentKey ==> (k in after <==> k in storage) && (k in after ==> after[k] == storage[k])
    ensures !Unanswered(storage) ==> after == storage
  {
    var banner := new Banner(storage);
    banner.Mount();
    if banner.showPending {
      banner.TimerFires();
      if accept {
        banner.Accept();
      } else {
        banner.Decline();
      }
    }
    after := banner.storage;
  }
}
