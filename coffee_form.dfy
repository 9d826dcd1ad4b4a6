/** The entry form: picking a coffee, its cost and how long ago it was drunk, and
    the submit handler that back-dates the timestamp, writes the entry into the
    log and asks for the one-entry merge into the user's document. */
module CoffeeForm {
  import opened Types
  import AuthContext

  const MsPerHour: int := 60 * 60 * 1000
  const MsPerMinute: int := 60 * 1000

  /** The latest back-dating the pickers allow: 23 hours and 55 minutes. */
  const MaxBackdate: int := 23 * MsPerHour + 55 * MsPerMinute

  /** The hours picker offers 0, 1, ..., 23. */
  function HourOptions(): (r: seq<int>)
    ensures |r| == 24
  {
    seq(24, i => i)
  }

  /** The minutes picker offers 0, 5, ..., 55. */
  function MinuteOptions(): (r: seq<int>)
    ensures |r| == 12
  {
    seq(12, i => i * 5)
  }

  lemma HourOptionsAre(h: int)
    ensures h in HourOptions() <==> 0 <= h < 24
  {
    if 0 <= h < 24 {
      assert HourOptions()[h] == h;
    }
  }

  lemma MinuteOptionsAre(m: int)
    ensures m in MinuteOptions() <==> 0 <= m <= 55 && m % 5 == 0
  {
    if 0 <= m <= 55 && m % 5 == 0 {
      assert MinuteOptions()[m / 5] == m;
    }
  }

  /** The stored key: `now` less the chosen hours and minutes in milliseconds. */
  function Timestamp(now: int, hour: int, min: int): (r: int)
    ensures r + hour * MsPerHour + min * MsPerMinute == now
    ensures 0 <= hour && 0 <= min ==> r <= now
  {
    now - (hour * 60 * 60 * 1000 + min * 60 * 1000)
  }

  /** Whatever the pickers show, the key lies in the day before `now`, and the
      key alone determines the pickers. */
  lemma TimestampWithinDay(now: int, hour: int, min: int)
    requires hour in HourOptions() && min in MinuteOptions()
    ensures now - Timestamp(now, hour, min) == hour * MsPerHour + min * MsPerMinute
    ensures Timestamp(now, hour, min) <= now
    ensures now - Timestamp(now, hour, min) <= MaxBackdate
  {
    HourOptionsAre(hour);
    MinuteOptionsAre(min);
  }

  lemma TimestampDeterminesPickers(now: int, h1: int, m1: int, h2: int, m2: int)
    requires h1 in HourOptions() && m1 in MinuteOptions()
    requires h2 in HourOptions() && m2 in MinuteOptions()
    requires Timestamp(now, h1, m1) == Timestamp(now, h2, m2)
    ensures h1 == h2 && m1 == m2
  {
    HourOptionsAre(h1); MinuteOptionsAre(m1);
    HourOptionsAre(h2); MinuteOptionsAre(m2);
    assert h1 * 60 + m1 == h2 * 60 + m2;
  }

  /** The new log `{...(globalData || {}), [key]: entry}`: a copy of the old log with
      the one key set; the old map value itself is untouched. */
  function WithEntry(data: Option<Log>, key: int, e: Entry): (r: Log)
    ensures r.Keys == OrEmpty(data).Keys + {key}
    ensures r[key] == e
    ensures forall k :: k in OrEmpty(data) && k != key ==> r[k] == OrEmpty(data)[k]
  {
    OrEmpty(data)[key := e]
  }

  /** The write `setDoc(users/uid, {[key]: entry}, {merge: true})`. */
  datatype Write = Write(uid: string, key: int, entry: Entry)

  /** The stored document after a merge write of one top-level key. Both fields of
      an entry are always written, so merging an entry into an older one at the
      same key leaves exactly the new entry. */
  function Merged(doc: Log, w: Write): (r: Log)
    ensures r.Keys == doc.Keys + {w.key}
    ensures r[w.key] == w.entry
    ensures forall k :: k in doc && k != w.key ==> r[k] == doc[k]
  {
    doc[w.key := w.entry]
  }

  /** If the stored document matched the in-memory log before a submit, merging
      the submit's write keeps them equal. */
  lemma MergeKeepsStoreInStep(doc: Log, data: Option<Log>, w: Write)
    requires OrEmpty(data) == doc
    ensures Merged(doc, w) == WithEntry(data, w.key, w.entry)
  {
  }

  /** `!selectedCoffee` is false: something other than null or the empty string. */
  predicate HasSelection(s: Option<string>)
    ensures HasSelection(s) <==> s != None && s != Some("")
  {
    s.Some? && s.value != ""
  }

  /** The form's component state. */
  class Form {
    var selectedCoffee: Option<string>
    var showModal: bool
    var showCoffeeTypes: bool
    var coffeeCost: real
    var hour: int
    var min: int

    /** The pickers only ever hold one of their options. */
    ghost predicate Valid()
      reads this
    {
      hour in HourOptions() && min in MinuteOptions()
    }

    constructor ()
      ensures Valid()
      ensures selectedCoffee == None && !showModal && !showCoffeeTypes
      ensures coffeeCost == 0.0 && hour == 0 && min == 0
    {
      selectedCoffee := None;
      showModal := false;
      showCoffeeTypes := false;
      coffeeCost := 0.0;
      hour := 0;
      min := 0;
      assert HourOptions()[0] == 0 && MinuteOptions()[0] == 0;
    }

    /** Clicking one of the quick-pick buttons. */
    method PickQuick(name: string)
      requires Valid()
      modifies this
      ensures Valid()
      ensures selectedCoffee == Some(name) && !showCoffeeTypes
      ensures showModal == old(showModal) && coffeeCost == old(coffeeCost)
      ensures hour == old(hour) && min == old(min)
    {
      selectedCoffee := Some(name);
      showCoffeeTypes := false;
    }

    /** Clicking "Other": shows the full list and clears the selection. */
    method PickOther()
      requires Valid()
      modifies this
      ensures Valid()
      ensures selectedCoffee == None && showCoffeeTypes
      ensures showModal == old(showModal) && coffeeCost == old(coffeeCost)
      ensures hour == old(hour) && min == old(min)
    {
      showCoffeeTypes := true;
      selectedCoffee := None;
    }

    /** Choosing `value` in the full list. */
    method PickFromList(value: string)
      requires Valid()
      modifies this
      ensures Valid()
      ensures selectedCoffee == Some(value)
      ensures showCoffeeTypes == old(showCoffeeTypes) && showModal == old(showModal)
      ensures coffeeCost == old(coffeeCost) && hour == old(hour) && min == old(min)
    {
      selectedCoffee := Some(value);
    }

    method SetCost(c: real)
      requires Valid()
      modifies this
      ensures Valid()
      ensures coffeeCost == c
      ensures selectedCoffee == old(selectedCoffee) && showModal == old(showModal)
      ensures showCoffeeTypes == old(showCoffeeTypes) && hour == old(hour) && min == old(min)
    {
      coffeeCost := c;
    }

    method SetHour(h: int)
      requires Valid() && h in HourOptions()
      modifies this
      ensures Valid() && hour == h
      ensures selectedCoffee == old(selectedCoffee) && showModal == old(showModal)
      ensures showCoffeeTypes == old(showCoffeeTypes) && coffeeCost == old(coffeeCost)
      ensures min == old(min)
    {
      hour := h;
    }

    method SetMin(m: int)
      requires Valid() && m in MinuteOptions()
      modifies this
      ensures Valid() && min == m
      ensures selectedCoffee == old(selectedCoffee) && showModal == old(showModal)
      ensures showCoffeeTypes == old(showCoffeeTypes) && coffeeCost == old(coffeeCost)
      ensures hour == old(hour)
    {
      min := m;
    }

    /** `handleCloseModal`. */
    method CloseModal()
      requires Valid()
      modifies this
      ensures Valid()
      ensures !showModal
      ensures selectedCoffee == old(selectedCoffee) && showCoffeeTypes == old(showCoffeeTypes)
      ensures coffeeCost == old(coffeeCost) && hour == old(hour) && min == old(min)
    {
      showModal := false;
    }

    /** `handleSubmitForm`, with `Date.now()` as `now` and `persisted` saying whether
        the document write succeeded. Returns the write that was issued, if any. A
        missing user makes `globalUser!.uid` throw inside the `try`: no write is
        issued and the form is not reset, as when the write fails. */
    method Submit(isAuthenticated: bool, session: AuthContext.Session, now: int, persisted: bool)
      returns (write: Option<Write>)
      requires Valid()
      modifies this, session
      ensures Valid()
      ensures session.user == old(session.user) && session.isLoading == old(session.isLoading)
      ensures showCoffeeTypes == old(showCoffeeTypes)
      // not signed in: only the sign-in modal opens
      ensures !isAuthenticated ==>
        write == None && showModal && session.data == old(session.data) &&
        selectedCoffee == old(selectedCoffee) && coffeeCost == old(coffeeCost) &&
        hour == old(hour) && min == old(min)
      // nothing selected: nothing changes
      ensures isAuthenticated && !HasSelection(old(selectedCoffee)) ==>
        write == None && showModal == old(showModal) && session.data == old(session.data) &&
        selectedCoffee == old(selectedCoffee) && coffeeCost == old(coffeeCost) &&
        hour == old(hour) && min == old(min)
      // a complete submit: the entry is in the log whatever happens to the write
      ensures isAuthenticated && HasSelection(old(selectedCoffee)) ==>
        var key := Timestamp(now, old(hour), old(min));
        var e := Entry(old(selectedCoffee).value, old(coffeeCost));
        showModal == old(showModal) &&
        session.data == Some(WithEntry(old(session.data), key, e)) &&
        (write.Some? <==> old(session.user).Some?) &&
        (write.Some? ==> write.value == Write(old(session.user).value.uid, key, e)) &&
        key <= now && now - key <= MaxBackdate &&
        (write.Some? && persisted ==>
          selectedCoffee == None && coffeeCost == 0.0 && hour == 0 && min == 0) &&
        (write.None? || !persisted ==>
          selectedCoffee == old(selectedCoffee) && coffeeCost == old(coffeeCost) &&
          hour == old(hour) && min == old(min))
    {
      write := None;
      if !isAuthenticated {
        showModal := true;
        return;
      }
      if !HasSelection(selectedCoffee) {
        return;
      }
      var timestamp := Timestamp(now, hour, min);
      TimestampWithinDay(now, hour, min);
      var e := Entry(selectedCoffee.value, coffeeCost);
      session.SetData(Some(WithEntry(session.data, timestamp, e)));
      if session.user.None? {
        return;
      }
      write := Some(Write(session.user.value.uid, timestamp, e));
      if persisted {
        selectedCoffee := None;
        hour := 0;
        min := 0;
        coffeeCost := 0.0;
        assert HourOptions()[0] == 0 && MinuteOptions()[0] == 0;
      }
    }
  }
}
