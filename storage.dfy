/**
  * The story form, the newsletter form and what they keep in `localStorage`.
  *
  * The stored lists are seen already parsed: `thebreak_stories_v1` as a
  * sequence of stories, newest first, and `thebreak_news_v1` as a sequence of
  * e-mail addresses, a missing key being the empty list. `SavedStories` and
  * `WithEmail` are what one save or one subscription does to them; `Site`
  * holds the lists, the form fields and the confessions list, and its
  * methods change them as the handlers do.
  */
module Storage {
  import JsText

  /** The object `saveStoryToStorage` stores. */
  datatype Story = Story(name: string, story: string, created: int)

  /** A card of the confessions list: the quoted story and its author line. */
  datatype Card = Card(quote: string, author: string)

  /** What `submitStory` makes of the two form fields. */
  datatype Submission = Ignored | Entry(name: string, story: string)

  const MaxStories := 200
  const Anonymous := "An\U{00F3}nimo"

  // ---------------------------------------------------------------------------
  // Stories

  /**
    * `arr.unshift(obj)` followed by `arr.slice(0, 200)`: `obj` comes first,
    * then the newest stories already stored, for at most 200 in all.
    */
  function SavedStories(stored: seq<Story>, obj: Story): (r: seq<Story>)
    ensures |r| == if |stored| < MaxStories then |stored| + 1 else MaxStories
    ensures r[0] == obj
    ensures r[1..] == stored[..|r| - 1]
  {
    var arr := [obj] + stored;
    if |arr| <= MaxStories then arr else arr[..MaxStories]
  }

  /** The first `MaxStories` entries of `s`. */
  function Newest(s: seq<Story>): seq<Story> {
    if |s| <= MaxStories then s else s[..MaxStories]
  }

  function Reverse<T>(s: seq<T>): seq<T> {
    if s == [] then [] else [s[|s| - 1]] + Reverse(s[..|s| - 1])
  }

  /** The stored list after saving `objs`, in that order. */
  function SaveAll(stored: seq<Story>, objs: seq<Story>): seq<Story> {
    if objs == [] then stored
    else SavedStories(SaveAll(stored, objs[..|objs| - 1]), objs[|objs| - 1])
  }

  /** One save on a capped list is a cap of the list with the story in front. */
  lemma SaveOnNewest(l: seq<Story>, obj: Story)
    ensures SavedStories(Newest(l), obj) == Newest([obj] + l)
  {
  }

  /**
    * After any run of saves the stored list holds the newest 200 stories,
    * newest first, followed by what was stored before while room is left.
    * This holds for any list found in storage once at least one story is
    * saved, and for a list of at most 200 before any save.
    */
  lemma {:induction false} SaveAllNewestFirst(stored: seq<Story>, objs: seq<Story>)
    requires |stored| <= MaxStories || objs != []
    ensures SaveAll(stored, objs) == Newest(Reverse(objs) + stored)
  {
    if objs == [] {
      assert Reverse(objs) + stored == stored;
    } else {
      var init, last := objs[..|objs| - 1], objs[|objs| - 1];
      assert [last] + (Reverse(init) + stored) == Reverse(objs) + stored;
      if init == [] {
        assert SaveAll(stored, objs) == SavedStories(stored, last);
        assert Reverse(init) + stored == stored;
      } else {
        SaveAllNewestFirst(stored, init);
        SaveOnNewest(Reverse(init) + stored, last);
      }
    }
  }

  // ---------------------------------------------------------------------------
  // Newsletter

  predicate NoDuplicates<T(==)>(s: seq<T>) {
    forall i, j :: 0 <= i < j < |s| ==> s[i] != s[j]
  }

  /**
    * `if (!arr.includes(email)) arr.push(email)`: the old list is kept as is,
    * a present address changes nothing, an absent one is added once at the
    * end, nothing else is added, and a list without duplicates stays without
    * duplicates.
    */
  function WithEmail(list: seq<string>, email: string): (r: seq<string>)
    ensures |list| <= |r| <= |list| + 1 && r[..|list|] == list
    ensures email in list ==> r == list
    ensures email !in list ==> |r| == |list| + 1
    ensures email in r
    ensures forall x :: x in r <==> x in list || x == email
    ensures NoDuplicates(list) ==> NoDuplicates(r)
  {
    if email in list then list else list + [email]
  }

  /** The list after subscribing `emails` in turn, one call each. */
  function SubscribeAll(list: seq<string>, emails: seq<string>): seq<string>
    decreases emails
  {
    if emails == [] then list else SubscribeAll(WithEmail(list, emails[0]), emails[1..])
  }

  /**
    * Starting from a list without duplicates, any run of subscriptions keeps
    * the list duplicate-free and keeps every address already there, in place.
    */
  lemma {:induction false} SubscribeAllNoDuplicates(list: seq<string>, emails: seq<string>)
    requires NoDuplicates(list)
    decreases emails
    ensures var r := SubscribeAll(list, emails);
      NoDuplicates(r) && |list| <= |r| && r[..|list|] == list
  {
    if emails != [] {
      var l1 := WithEmail(list, emails[0]);
      SubscribeAllNoDuplicates(l1, emails[1..]);
      var r := SubscribeAll(l1, emails[1..]);
      calc {
        r[..|list|];
        r[..|l1|][..|list|];
        l1[..|list|];
        list;
      }
    }
  }

  /** After any run of subscriptions the list holds exactly the old and the new addresses. */
  lemma {:induction false} SubscribeAllMembers(list: seq<string>, emails: seq<string>)
    decreases emails
    ensures forall x :: x in SubscribeAll(list, emails) <==> x in list || x in emails
  {
    if emails != [] {
      var e, rest := emails[0], emails[1..];
      SubscribeAllMembers(WithEmail(list, e), rest);
      assert emails == [e] + rest;
      forall x ensures x in emails <==> x == e || x in rest {
      }
    }
  }

  // ---------------------------------------------------------------------------
  // Form input

  /**
    * The checks of `submitStory`: the story is the trimmed story field and is
    * ignored when blank; the name is the trimmed name field, or `Anónimo`
    * when that is blank. Each is the field with blank text cut from both
    * ends and nothing else: by `JsText.TrimOfPadded` no other text with
    * non-whitespace ends has blank text around it in the field.
    */
  function StoryEntry(nameField: string, storyField: string): (s: Submission)
    ensures s.Ignored? <==> JsText.AllSpace(storyField)
    ensures s.Entry? ==>
      && s.story != [] && !JsText.IsSpace(s.story[0]) && !JsText.IsSpace(s.story[|s.story| - 1])
      && JsText.Padded(storyField, s.story)
      && JsText.Strip(s.story) == JsText.Strip(storyField)
    ensures s.Entry? && JsText.AllSpace(nameField) ==> s.name == Anonymous
    ensures s.Entry? && !JsText.AllSpace(nameField) ==>
      && s.name != [] && !JsText.IsSpace(s.name[0]) && !JsText.IsSpace(s.name[|s.name| - 1])
      && JsText.Padded(nameField, s.name)
      && JsText.Strip(s.name) == JsText.Strip(nameField)
  {
    var trimmedName := JsText.Trim(nameField);
    var name := if trimmedName == [] then Anonymous else trimmedName;
    var story := JsText.Trim(storyField);
    JsText.TrimKeepsText(nameField);
    JsText.TrimKeepsText(storyField);
    if story == [] then Ignored else Entry(name, story)
  }

  // ---------------------------------------------------------------------------
  // The page and its storage

  class Site {
    var stories: seq<Story>      // `thebreak_stories_v1`, newest first
    var emails: seq<string>      // `thebreak_news_v1`
    var cards: seq<Card>         // the confessions list, top first
    var nameField: string
    var storyField: string
    var emailField: string

    /** The page with empty forms over the lists found in storage. */
    constructor (stories: seq<Story>, emails: seq<string>, cards: seq<Card>)
      ensures this.stories == stories && this.emails == emails && this.cards == cards
      ensures nameField == "" && storyField == "" && emailField == ""
    {
      this.stories, this.emails, this.cards := stories, emails, cards;
      nameField, storyField, emailField := "", "", "";
    }

    /** `saveStoryToStorage(obj)`: the stored list gains `obj` in front and keeps at most 200. */
    method SaveStoryToStorage(obj: Story)
      modifies this`stories
      ensures stories == SavedStories(old(stories), obj)
      ensures |stories| <= MaxStories && stories[0] == obj
    {
      var arr := stories;
      arr := [obj] + arr;                      // arr.unshift(obj)
      if |arr| > MaxStories {
        arr := arr[..MaxStories];              // arr.slice(0, 200)
      }
      stories := arr;
    }

    /**
      * `submitStory`, `now` standing for `Date.now()`. A blank story changes
      * nothing. Otherwise its card goes to the top of the list, the story is
      * saved and the form is reset.
      */
    method SubmitStory(now: int) returns (submitted: bool)
      modifies this`stories, this`cards, this`nameField, this`storyField
      ensures submitted <==> !JsText.AllSpace(old(storyField))
      ensures !submitted ==>
        && stories == old(stories) && cards == old(cards)
        && nameField == old(nameField) && storyField == old(storyField)
      ensures submitted ==>
        var e := StoryEntry(old(nameField), old(storyField));
        && stories == SavedStories(old(stories), Story(e.name, e.story, now))
        && cards == [Card(e.story, e.name)] + old(cards)
        && nameField == "" && storyField == ""
    {
      var entry := StoryEntry(nameField, storyField);
      if entry.Ignored? {
        return false;
      }
      cards := [Card(entry.story, entry.name)] + cards;
      SaveStoryToStorage(Story(entry.name, entry.story, now));
      nameField, storyField := "", "";         // form.reset()
      return true;
    }

    /**
      * `subscribeNewsletter`: a blank address changes nothing; otherwise the
      * trimmed address is added to the stored list unless already there, and
      * the field is cleared.
      */
    method SubscribeNewsletter() returns (subscribed: bool)
      modifies this`emails, this`emailField
      ensures subscribed <==> !JsText.AllSpace(old(emailField))
      ensures !subscribed ==> emails == old(emails) && emailField == old(emailField)
      ensures subscribed ==>
        && emails == WithEmail(old(emails), JsText.Trim(old(emailField)))
        && emailField == ""
      ensures NoDuplicates(old(emails)) ==> NoDuplicates(emails)
    {
      var email := JsText.Trim(emailField);
      if email == [] {
        return false;
      }
      var arr := emails;
      if email !in arr {
        arr := arr + [email];                  // arr.push(email)
      }
      emails := arr;
      emailField := "";
      return true;
    }
  }
}
