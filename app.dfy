/**
 * `MainController` of the demo single-page application: a view-model with a
 * photo carousel, three mutually exclusive tabs, a chat transcript and a
 * blinking "unread" notice on the Chat tab.
 *
 * The controller's mutable state (`$scope.model`, `$scope.views`,
 * `self.blinkInterval`, the chat container node and `$scope.imageUrl`)
 * becomes the fields of class `MainController`; each handler becomes a method
 * whose postcondition gives the whole new state. The DOM, the Angular event
 * bus and the browser timers are not modelled: a running blink timer is
 * `blinkInterval == true`, and the chat container is the sequence of the
 * messages appended to it.
 */
module App {
  import opened Wrappers
  import opened JsStrings

  /** `self.imageUrlTpl`: the placeholders are filled in by `setImageUrl`. */
  const ImageUrlTemplate: string := "http://lorempixel.com/%width%/%height%/sports/%number%"

  /** The key code of "Enter", the only key that submits a chat message. */
  const EnterKey: int := 13

  /** The two image dimensions that `getValidValue` accepts as its key. */
  datatype Dimension = Width | Height

  datatype DimensionRange = DimensionRange(min: int, max: int, default: int)
  datatype PageRange = PageRange(min: int, max: int)

  /** The shape of `$scope.ranges`. */
  datatype Ranges = Ranges(height: DimensionRange, width: DimensionRange, page: PageRange)

  /** `$scope.ranges`: fixed at start and never changed by the controller. */
  const ControllerRanges: Ranges :=
    Ranges(DimensionRange(150, 600, 480), DimensionRange(200, 800, 640), PageRange(1, 10))

  function RangeOf(key: Dimension): (r: DimensionRange)
    ensures r.min <= r.default <= r.max
  {
    match key
    case Width => ControllerRanges.width
    case Height => ControllerRanges.height
  }

  /** `$scope.model`: the values the page binds to. */
  datatype ViewModel = ViewModel(width: int, height: int, nickname: string, message: string, page: int)
  {
    function Get(key: Dimension): int {
      match key
      case Width => width
      case Height => height
    }
  }

  const InitialModel: ViewModel := ViewModel(640, 480, ":D", "", 1)

  /** One entry of `$scope.views`: the tab's key and its `active` flag. */
  datatype TabView = TabView(name: string, active: bool)

  /** `$scope.views` at start, in the order its keys are enumerated. */
  const InitialViews: seq<TabView> :=
    [TabView("Chat", true), TabView("Photos", false), TabView("Settings", false)]

  /** One node of the chat container: the text and who sent it. */
  datatype ChatMessage = ChatMessage(text: string, sentByMe: bool)

  // The template cut at each of its placeholders, and the fixed text before
  // the first one, which holds no `%`.

  lemma TemplateSplitsAtWidth()
    ensures ImageUrlTemplate == "http://lorempixel.com/" + "%width%" + "/%height%/sports/%number%"
  {
  }

  lemma TemplateSplitsAtHeight()
    ensures "/%height%/sports/%number%" == "/" + "%height%" + "/sports/%number%"
  {
  }

  lemma TemplateSplitsAtNumber()
    ensures "/sports/%number%" == "/sports/" + "%number%" + ""
  {
  }

  lemma HostHasNoPercent()
    ensures '%' !in "http://lorempixel.com/"
  {
  }

  /** The first step of `FillTemplate`: `%width%` is the first `%` of the template. */
  lemma FillWidth(w: string)
    ensures ReplaceFirst(ImageUrlTemplate, "%width%", w) == "http://lorempixel.com/" + w + "/%height%/sports/%number%"
  {
    TemplateSplitsAtWidth();
    HostHasNoPercent();
    ReplaceFirstAt("http://lorempixel.com/", "%width%", w, "/%height%/sports/%number%");
  }

  /** The second step: `%height%` is the first `%` once the width is in. */
  lemma FillHeight(pre: string, h: string)
    requires '%' !in pre
    ensures ReplaceFirst(pre + "/%height%/sports/%number%", "%height%", h) == pre + "/" + h + "/sports/%number%"
  {
    TemplateSplitsAtHeight();
    assert pre + "/%height%/sports/%number%" == (pre + "/") + "%height%" + "/sports/%number%";
    ReplaceFirstAt(pre + "/", "%height%", h, "/sports/%number%");
  }

  /** The last step: `%number%` is the only `%` left. */
  lemma FillNumber(pre: string, p: string)
    requires '%' !in pre
    ensures ReplaceFirst(pre + "/sports/%number%", "%number%", p) == pre + "/sports/" + p
  {
    TemplateSplitsAtNumber();
    assert pre + "/sports/%number%" == (pre + "/sports/") + "%number%" + "";
    ReplaceFirstAt(pre + "/sports/", "%number%", p, "");
  }

  /**
   * Filling the template placeholder by placeholder yields the URL pieces in
   * order, provided the substituted texts bring in no `%` of their own.
   */
  lemma FillTemplate(w: string, h: string, p: string)
    requires '%' !in w && '%' !in h
    ensures ReplaceFirst(ReplaceFirst(ReplaceFirst(ImageUrlTemplate, "%width%", w), "%height%", h), "%number%", p)
            == "http://lorempixel.com/" + w + "/" + h + "/sports/" + p
  {
    var host := "http://lorempixel.com/";
    FillWidth(w);
    assert '%' !in host + w;
    FillHeight(host + w, h);
    assert '%' !in host + w + "/" + h;
    FillNumber(host + w + "/" + h, p);
  }

  /**
   * The URL that `setImageUrl`'s template denotes: the host followed by the
   * width, the height and the page, in that order.
   */
  function ImageUrl(width: int, height: int, page: int): string {
    "http://lorempixel.com/" + IntToString(width) + "/" + IntToString(height) + "/sports/" + IntToString(page)
  }

  /** The URL `start()` shows before any navigation. */
  lemma InitialImageUrl()
    ensures ImageUrl(640, 480, 1) == "http://lorempixel.com/640/480/sports/1"
  {
  }

  /** A number's rendering holds no `/`, so it cannot run into a path separator. */
  lemma NoSlashInNumber(i: int)
    ensures '/' !in IntToString(i)
  {
  }

  /** The URL as the host followed by the path, grouped from the right. */
  lemma ImageUrlShape(w: int, h: int, p: int)
    ensures ImageUrl(w, h, p)
         == "http://lorempixel.com/" + (IntToString(w) + "/" + (IntToString(h) + "/sports/" + IntToString(p)))
  {
  }

  /** Equal texts after a common prefix are equal. */
  lemma DropPrefix(pre: string, x: string, y: string)
    requires pre + x == pre + y
    ensures x == y
  {
    assert x == (pre + x)[|pre|..];
    assert y == (pre + y)[|pre|..];
  }

  /** Different sizes or pages never yield the same URL. */
  lemma ImageUrlInjective(w: int, h: int, p: int, w': int, h': int, p': int)
    requires ImageUrl(w, h, p) == ImageUrl(w', h', p')
    ensures w == w' && h == h' && p == p'
  {
    var W, H, P := IntToString(w), IntToString(h), IntToString(p);
    var W', H', P' := IntToString(w'), IntToString(h'), IntToString(p');
    ImageUrlShape(w, h, p);
    ImageUrlShape(w', h', p');
    DropPrefix("http://lorempixel.com/", W + "/" + (H + "/sports/" + P), W' + "/" + (H' + "/sports/" + P'));
    NoSlashInNumber(w);
    NoSlashInNumber(w');
    NoSlashInNumber(h);
    NoSlashInNumber(h');
    SplitUnique(W, "/", H + "/sports/" + P, W', H' + "/sports/" + P');
    SplitUnique(H, "/sports/", P, H', P');
    IntToStringInjective(w, w');
    IntToStringInjective(h, h');
    IntToStringInjective(p, p');
  }

  /** The URL the unit test expects after setting 400 by 200 on page 2. */
  lemma ScenarioImageUrl()
    ensures ImageUrl(400, 200, 2) == "http://lorempixel.com/400/200/sports/2"
  {
  }

  /** The number of tabs whose `active` flag is set. */
  function ActiveCount(views: seq<TabView>): nat {
    if views == [] then 0 else (if views[0].active then 1 else 0) + ActiveCount(views[1..])
  }

  predicate HasTab(views: seq<TabView>, key: string) {
    exists i :: 0 <= i < |views| && views[i].name == key
  }

  predicate DistinctNames(views: seq<TabView>) {
    forall i, j :: 0 <= i < j < |views| ==> views[i].name != views[j].name
  }

  /** The views after `setActiveTab(key)`: each tab is active iff its key is `key`. */
  function SelectTab(views: seq<TabView>, key: string): (r: seq<TabView>)
    ensures |r| == |views|
    ensures forall i :: 0 <= i < |r| ==> r[i].name == views[i].name && (r[i].active <==> views[i].name == key)
  {
    if views == [] then [] else [TabView(views[0].name, views[0].name == key)] + SelectTab(views[1..], key)
  }

  /**
   * With distinct tab keys, selecting a known key leaves exactly one tab
   * active and selecting an unknown key leaves none.
   */
  lemma {:induction false} SelectTabActiveCount(views: seq<TabView>, key: string)
    requires DistinctNames(views)
    ensures ActiveCount(SelectTab(views, key)) == if HasTab(views, key) then 1 else 0
  {
    if views != [] {
      var r := SelectTab(views, key);
      var tail := views[1..];
      assert r[1..] == SelectTab(tail, key);
      assert DistinctNames(tail);
      SelectTabActiveCount(tail, key);
      if views[0].name == key {
        assert !HasTab(tail, key) by {
          forall i | 0 <= i < |tail| ensures tail[i].name != key {
            assert tail[i] == views[i + 1];
          }
        }
      } else {
        assert HasTab(views, key) <==> HasTab(tail, key) by {
          if HasTab(views, key) {
            var i :| 0 <= i < |views| && views[i].name == key;
            assert tail[i - 1] == views[i];
          }
          if HasTab(tail, key) {
            var i :| 0 <= i < |tail| && tail[i].name == key;
            assert views[i + 1] == tail[i];
          }
        }
      }
    }
  }

  /** The keys of `$scope.views`, in enumeration order. */
  predicate HasControllerKeys(views: seq<TabView>) {
    |views| == 3 && views[0].name == "Chat" && views[1].name == "Photos" && views[2].name == "Settings"
  }

  predicate IsTabKey(key: string) {
    key == "Chat" || key == "Photos" || key == "Settings"
  }

  /**
   * On the controller's own views, `setActiveTab(key)` keeps the keys, makes
   * exactly one tab active for one of the three keys and none for any other,
   * and activates Chat exactly for `"Chat"`.
   */
  lemma SelectControllerTab(views: seq<TabView>, key: string)
    requires HasControllerKeys(views)
    ensures HasControllerKeys(SelectTab(views, key))
    ensures ActiveCount(SelectTab(views, key)) == if IsTabKey(key) then 1 else 0
    ensures SelectTab(views, key)[0].active <==> key == "Chat"
  {
    SelectTabActiveCount(views, key);
    if IsTabKey(key) {
      assert key == views[0].name || key == views[1].name || key == views[2].name;
    }
  }

  class MainController {
    /** `$scope.model` */
    var model: ViewModel
    /** `$scope.views`, in enumeration order */
    var views: seq<TabView>
    /** `self.blinkInterval`: true while a blink timer handle is stored */
    var blinkInterval: bool
    /** the children appended to the chat container node, oldest first */
    var chatContainer: seq<ChatMessage>
    /** `$scope.imageUrl` */
    var imageUrl: string

    /** The keys of `$scope.views` never change. */
    ghost predicate Valid()
      reads this`views
    {
      HasControllerKeys(views)
    }

    /**
     * What the handlers maintain: at most one tab is active, no blink timer
     * runs while Chat is active, the carousel page is within its range and
     * the image URL matches the model.
     */
    ghost predicate Consistent()
      reads this`views, this`blinkInterval, this`model, this`imageUrl
      requires Valid()
    {
      AtMostOneActive() && BlinkOnlyWhenChatHidden() && PageInRange() && UrlCurrent()
    }

    ghost predicate AtMostOneActive()
      reads this`views
    {
      ActiveCount(views) <= 1
    }

    ghost predicate BlinkOnlyWhenChatHidden()
      reads this`views, this`blinkInterval
      requires Valid()
    {
      ChatActive() ==> !blinkInterval
    }

    ghost predicate PageInRange()
      reads this`model
    {
      ControllerRanges.page.min <= model.page <= ControllerRanges.page.max
    }

    ghost predicate UrlCurrent()
      reads this`model, this`imageUrl
    {
      imageUrl == ImageUrl(GetValidValue(Width), GetValidValue(Height), model.page)
    }

    /** `$scope.views.Chat.active` */
    function ChatActive(): bool
      reads this`views
      requires Valid()
    {
      views[0].active
    }

    /**
     * The controller body and its `start()`: the initial scope values, then
     * `setImageUrl()`. Subscribing to incoming messages and starting the
     * synthetic feed are not modelled; `OnMessage` is the subscribed handler.
     */
    constructor ()
      ensures Valid() && Consistent()
      ensures model == InitialModel && views == InitialViews
      ensures !blinkInterval && chatContainer == []
      ensures imageUrl == "http://lorempixel.com/640/480/sports/1"
    {
      model := InitialModel;
      views := InitialViews;
      blinkInterval := false;
      chatContainer := [];
      imageUrl := "";
      new;
      SetImageUrl();
      assert ActiveCount(views) == 1 by {
        assert views[1..][1..][1..] == [];
      }
      InitialImageUrl();
    }

    /**
     * `getValidValue(key)`: the model's value (an integer, so `parseInt` keeps it)
     * when it lies within the key's range, and the range's default otherwise.
     */
    function GetValidValue(key: Dimension): (r: int)
      reads this`model
      ensures RangeOf(key).min <= r <= RangeOf(key).max
      ensures r == model.Get(key) <==> RangeOf(key).min <= model.Get(key) <= RangeOf(key).max
      ensures r != model.Get(key) ==> r == RangeOf(key).default
    {
      var range := RangeOf(key);
      var val := model.Get(key);
      if val >= range.min && val <= range.max then val else range.default
    }

    /** `setImageUrl()`: fills the template from the valid width and height and the page. */
    method SetImageUrl()
      modifies this`imageUrl
      ensures imageUrl == ImageUrl(GetValidValue(Width), GetValidValue(Height), model.page)
    {
      var w, h, p := IntToString(GetValidValue(Width)), IntToString(GetValidValue(Height)), IntToString(model.page);
      imageUrl := ReplaceFirst(ReplaceFirst(ReplaceFirst(ImageUrlTemplate, "%width%", w), "%height%", h), "%number%", p);
      FillTemplate(w, h, p);
    }

    /**
     * `moveToPage(page)`: a page outside the range is refused with `false`
     * and nothing changes; otherwise the page is set, the URL recomputed and
     * `undefined` (`None`) returned.
     */
    method MoveToPage(page: int) returns (r: Option<bool>)
      requires Valid()
      modifies this`model, this`imageUrl
      ensures Valid()
      ensures old(Consistent()) ==> Consistent()
      ensures page < ControllerRanges.page.min || page > ControllerRanges.page.max ==>
        r == Some(false) && model == old(model) && imageUrl == old(imageUrl)
      ensures ControllerRanges.page.min <= page <= ControllerRanges.page.max ==>
        r == None && model == old(model).(page := page)
        && imageUrl == ImageUrl(GetValidValue(Width), GetValidValue(Height), page)
    {
      if page < ControllerRanges.page.min || page > ControllerRanges.page.max {
        return Some(false);
      }
      model := model.(page := page);
      SetImageUrl();
      r := None;
    }

    /**
     * `setActiveTab(key)`: every tab's flag becomes "its key is `key`"; when
     * Chat ends up active, the blink timer is cleared.
     */
    method SetActiveTab(key: string)
      requires Valid()
      modifies this`views, this`blinkInterval
      ensures Valid()
      ensures old(Consistent()) ==> Consistent()
      ensures views == SelectTab(old(views), key)
      ensures ActiveCount(views) == if IsTabKey(key) then 1 else 0
      ensures ChatActive() <==> key == "Chat"
      ensures blinkInterval == (old(blinkInterval) && !ChatActive())
    {
      var i := 0;
      while i < |views|
        invariant 0 <= i <= |views| == |old(views)|
        invariant forall k :: 0 <= k < i ==> views[k] == TabView(old(views)[k].name, old(views)[k].name == key)
        invariant forall k :: i <= k < |views| ==> views[k] == old(views)[k]
        invariant blinkInterval == old(blinkInterval)
      {
        views := views[i := TabView(views[i].name, views[i].name == key)];
        i := i + 1;
      }
      assert views == SelectTab(old(views), key);
      SelectControllerTab(old(views), key);
      if views[0].active {
        blinkInterval := false;
      }
    }

    /**
     * `addMessageToChatWindow(message, sentByMe)`: an empty text is ignored;
     * any other is appended to the chat container.
     */
    method AddMessageToChatWindow(message: string, sentByMe: bool)
      modifies this`chatContainer
      ensures chatContainer ==
        if message == "" then old(chatContainer) else old(chatContainer) + [ChatMessage(message, sentByMe)]
    {
      if |message| == 0 {
        return;
      }
      chatContainer := chatContainer + [ChatMessage(message, sentByMe)];
    }

    /**
     * `sendMessage()`: the pending message goes to the chat window as sent by
     * this user (ignored when empty), and the input is cleared.
     */
    method SendMessage()
      requires Valid()
      modifies this`model, this`chatContainer
      ensures Valid()
      ensures old(Consistent()) ==> Consistent()
      ensures model == old(model).(message := "")
      ensures chatContainer ==
        if old(model.message) == "" then old(chatContainer)
        else old(chatContainer) + [ChatMessage(old(model.message), true)]
    {
      AddMessageToChatWindow(model.message, true);
      model := model.(message := "");
    }

    /** `keyPressProxy()` for the key code `which`: "Enter" sends the message. */
    method KeyPressProxy(which: int)
      requires Valid()
      modifies this`model, this`chatContainer
      ensures Valid()
      ensures old(Consistent()) ==> Consistent()
      ensures which != EnterKey ==> model == old(model) && chatContainer == old(chatContainer)
      ensures which == EnterKey ==>
        && model == old(model).(message := "")
        && chatContainer == if old(model.message) == "" then old(chatContainer)
                            else old(chatContainer) + [ChatMessage(old(model.message), true)]
    {
      if which == EnterKey {
        SendMessage();
      }
    }

    /**
     * `notifyUser()`: starts the blink timer (`blinkChatTab`) only when Chat
     * is not active and no blink timer is stored.
     */
    method NotifyUser()
      requires Valid()
      modifies this`blinkInterval
      ensures Valid()
      ensures old(Consistent()) ==> Consistent()
      ensures blinkInterval == (old(blinkInterval) || !ChatActive())
    {
      if !ChatActive() && !blinkInterval {
        blinkInterval := true;
      }
    }

    /**
     * The handler `start()` subscribes to the `message` event: the text is
     * appended as not sent by this user, then the user is notified.
     */
    method OnMessage(text: string)
      requires Valid()
      modifies this`chatContainer, this`blinkInterval
      ensures Valid()
      ensures old(Consistent()) ==> Consistent()
      ensures chatContainer ==
        if text == "" then old(chatContainer) else old(chatContainer) + [ChatMessage(text, false)]
      ensures blinkInterval == (old(blinkInterval) || !ChatActive())
    {
      AddMessageToChatWindow(text, false);
      NotifyUser();
    }
  }
  // What a caller can conclude from the contracts alone, following the
  // controller's unit tests.

  /** The initial scope and the page guard. */
  method PageScenario()
  {
    var c := new MainController();
    assert c.ChatActive() && !c.blinkInterval;
    var r := c.MoveToPage(15);
    assert r == Some(false) && c.model.page == 1;
    r := c.MoveToPage(9);
    assert r == None && c.model.page == 9;
  }

  /** Tab selection and a notice that is started once and cleared by Chat. */
  method TabScenario()
  {
    var c := new MainController();
    c.SetActiveTab("Photos");
    assert !c.ChatActive() && c.views[1].active;
    c.NotifyUser();
    assert c.blinkInterval;
    c.NotifyUser();
    assert c.blinkInterval;
    c.SetActiveTab("Chat");
    assert c.ChatActive() && !c.blinkInterval;
  }

  /** A key that names no tab leaves every tab inactive. */
  method UnknownTabScenario()
  {
    var c := new MainController();
    c.SetActiveTab("Inbox");
    assert ActiveCount(c.views) == 0;
  }

  /** Sending on "Enter" only, and never an empty message. */
  method MessageScenario()
  {
    var c := new MainController();
    c.model := c.model.(message := "12345");
    c.KeyPressProxy(14);
    assert c.model.message == "12345" && c.chatContainer == [];
    c.KeyPressProxy(EnterKey);
    assert c.model.message == "" && c.chatContainer == [ChatMessage("12345", true)];
    c.SendMessage();
    assert c.chatContainer == [ChatMessage("12345", true)];
    c.OnMessage("");
    assert c.chatContainer == [ChatMessage("12345", true)];
  }

  /** `getValidValue` on an out-of-range and an in-range width. */
  method ValidValueScenario()
  {
    var c := new MainController();
    c.model := c.model.(width := 1);
    assert c.GetValidValue(Width) == 640;
    c.model := c.model.(width := 400);
    assert c.GetValidValue(Width) == 400;
  }
  /** `setImageUrl` on a 400 by 200 image at page 2. */
  method ImageUrlScenario()
  {
    var c := new MainController();
    c.model := c.model.(width := 400, height := 200, page := 2);
    c.SetImageUrl();
    ScenarioImageUrl();
    assert c.imageUrl == "http://lorempixel.com/400/200/sports/2";
  }
}
