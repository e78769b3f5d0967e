/** The contact-messages page (src/admin/pages/ContactsAdmin.jsx): long
    messages are cut on the card and opened in a modal; messages can be
    deleted. */
module ContactsAdmin {
  import opened Wrappers
  import opened Text
  import opened Records
  import opened Lists
  import Store

  const DefaultWordLimit := 15

  /** `truncateText(text, wordLimit)` */
  function TruncateText(text: string, wordLimit: nat): (r: string)
    ensures Count(text, ' ') < wordLimit ==> r == text
    ensures Count(text, ' ') >= wordLimit ==> r == FirstWords(text, wordLimit) + "..."
  {
    SplitLength(text, ' ');
    var words := Split(text, ' ');
    if |words| <= wordLimit then text else Join(words[..wordLimit], ' ') + "..."
  }

  /** Line 104: `contact.message.split(' ').length > 15`. */
  predicate ShowsReadMore(message: string) {
    |Split(message, ' ')| > DefaultWordLimit
  }

  /** The button appears exactly when the card's text differs from the message. */
  lemma ReadMoreIffShortened(message: string)
    ensures ShowsReadMore(message) <==> TruncateText(message, DefaultWordLimit) != message
  {
    SplitLength(message, ' ');
    if ShowsReadMore(message) {
      var p := FirstWords(message, DefaultWordLimit);
      FirstWordsCut(message, DefaultWordLimit);
      CountEllipsis(p);
    }
  }

  class ContactsAdminPage {
    var db: Store.Db
    var contacts: seq<Doc>
    var loading: bool
    var error: string
    var selected: Option<Doc>
    var modalShow: bool

    constructor (db: Store.Db)
      ensures this.db == db && contacts == [] && loading && error == "" && selected.None? && !modalShow
    {
      this.db := db;
      contacts := [];
      loading := true;
      error := "";
      selected := None;
      modalShow := false;
    }

    /** The mount effect; `snap` is the query result in the order the backend returns it. */
    method Load(ok: bool, snap: seq<Doc>)
      requires Store.IsSnapshot(db, Store.Contacts, (f: Fields) => true, snap)
      modifies this`contacts, this`loading, this`error
      ensures !loading
      ensures ok ==> contacts == snap && error == old(error)
      ensures !ok ==> contacts == old(contacts) && error == "Failed to load contacts. Please try again later."
    {
      loading := true;
      if ok {
        contacts := snap;
      } else {
        error := "Failed to load contacts. Please try again later.";
      }
      loading := false;
    }

    method ReadMore(contact: Doc)
      modifies this`selected, this`modalShow
      ensures selected == Some(contact) && modalShow
    {
      selected := Some(contact);
      modalShow := true;
    }

    /** `handleDelete`: the modal closes only when it shows the deleted message. */
    method Delete(id: string, confirmed: bool, ok: bool)
      modifies this`db, this`contacts, this`modalShow, this`error
      ensures !confirmed ==> db == old(db) && contacts == old(contacts) && modalShow == old(modalShow) && error == old(error)
      ensures confirmed && ok ==>
                db == Store.Delete(old(db), Store.Contacts, id, true).value
                && contacts == RemoveById(old(contacts), id)
                && modalShow == (old(modalShow) && !(selected.Some? && selected.value.id == id))
                && error == old(error)
      ensures confirmed && !ok ==>
                db == old(db) && contacts == old(contacts) && modalShow == old(modalShow)
                && error == "Failed to delete contact."
    {
      if !confirmed {
        return;
      }
      var r := Store.Delete(db, Store.Contacts, id, ok);
      if r.Some? {
        db := r.value;
        contacts := RemoveById(contacts, id);
        if selected.Some? && selected.value.id == id {
          modalShow := false;
        }
      } else {
        error := "Failed to delete contact.";
      }
    }
  }
}
