/** The main screen: a festival and one of its categories select a list of
    greetings, shown two pages of five at a time, with buttons to copy one
    greeting, or the whole page, to the clipboard, or to share the page. */
module Greetings {
  import opened Text
  import opened Pages
  import opened Wrappers

  const Spring: string := "春节祝福"
  const Lantern: string := "元宵节祝福"
  /** `FESTIVALS`, in the order of the festival buttons. */
  const Festivals: seq<string> := [Spring, Lantern]
  /** What goes between two greetings when a whole page is copied or shared. */
  const Separator: string := "\n---\n"

  /** One festival's greeting table, a Python dict: its category names in
      insertion order, and the greetings of each. */
  datatype Table = Table(categories: seq<string>, greetings: map<string, seq<string>>)
  {
    /** The shape of the source's tables: at least one category (they have
        five), no category listed twice, and every listed category, and only
        those, has greetings. */
    predicate Valid() {
      && |categories| > 0
      && (forall i, j :: 0 <= i < j < |categories| ==> categories[i] != categories[j])
      && greetings.Keys == set c | c in categories
    }
  }

  /** Greetings past the tenth of a category never appear: the two pages
      the screen can reach show the first ten, in order, and nothing else. */
  lemma OnlyFirstTenShown(s: seq<string>)
    ensures FirstPages(s, 2) == s[..Min(10, |s|)]
  {
    FirstPagesArePrefix(s, 2);
  }

  /** `text` lays out page `page` of the greetings `s`, joined by
      `Separator`: it has their total length plus one separator between each
      two, greeting `5 * page + k` of `s` sits unchanged at
      `PieceStart(Separator, PageItems(s, page), k)`, and exactly `Separator`
      follows every greeting of the page but the last. */
  ghost predicate PageLayout(text: string, s: seq<string>, page: nat)
  {
    var items := PageItems(s, page);
    && |text| == TotalLength(items) + (if items == [] then 0 else (|items| - 1) * |Separator|)
    && (forall k :: 0 <= k < |items| ==>
         && PieceStart(Separator, items, k) + |items[k]| <= |text|
         && text[PieceStart(Separator, items, k)..PieceStart(Separator, items, k) + |items[k]|] == s[page * PageSize + k])
    && (forall k :: 0 <= k < |items| - 1 ==>
         && PieceStart(Separator, items, k) + |items[k]| + |Separator| <= |text|
         && text[PieceStart(Separator, items, k) + |items[k]|..PieceStart(Separator, items, k) + |items[k]| + |Separator|] == Separator)
  }

  lemma PageTextLayout(s: seq<string>, page: nat)
    ensures PageLayout(Join(Separator, PageItems(s, page)), s, page)
  {
    var items := PageItems(s, page);
    JoinLength(Separator, items);
    JoinLayout(Separator, items);
  }

  class MainScreen {
    const spring: Table
    const lantern: Table
    /** Fixed at two, whatever the length of the category's list. */
    const totalPages: int := 2

    var festival: string
    var category: string
    var categoryList: seq<string>
    var currentPage: int
    var prevDisabled: bool
    var nextDisabled: bool
    var pageLabel: string
    /** The texts of the rows currently in the greeting list. */
    var shown: seq<string>
    /** The system clipboard. */
    var clipboard: string

    /** `get_current_blessings_dict`: the Spring Festival table for
        `Festivals[0]`, the Lantern Festival table for any other name. */
    function CurrentTable(): Table
      reads this
    {
      if festival == Spring then spring else lantern
    }

    ghost predicate Valid()
      reads this
    {
      && spring.Valid() && lantern.Valid()
      && categoryList == CurrentTable().categories
      && category in CurrentTable().greetings
      && 0 <= currentPage <= totalPages - 1
      && prevDisabled == (currentPage == 0)
      && nextDisabled == (currentPage == totalPages - 1)
      && pageLabel == PageLabel(currentPage + 1, totalPages)
      && shown == PageItems(CurrentTable().greetings[category], currentPage)
    }

    /** The greetings on the current page of the current category. */
    function PageGreetings(): seq<string>
      reads this
      requires category in CurrentTable().greetings && currentPage >= 0
    {
      PageItems(CurrentTable().greetings[category], currentPage)
    }

    /** The text the send and share buttons hand on: the current page's
        greetings joined by `Separator`, laid out as `PageLayout` says. */
    function PageText(): (text: string)
      reads this
      requires category in CurrentTable().greetings && currentPage >= 0
      ensures PageLayout(text, CurrentTable().greetings[category], currentPage)
    {
      PageTextLayout(CurrentTable().greetings[category], currentPage);
      Join(Separator, PageGreetings())
    }

    /** The page label reads back as the page shown and the page count. */
    lemma PageLabelReadsBack()
      requires Valid()
      ensures ParsePageLabel(pageLabel) == Some((currentPage + 1, totalPages))
    {
      PageLabelRoundTrip(currentPage + 1, totalPages);
    }

    constructor (spring: Table, lantern: Table, clipboard: string)
      requires spring.Valid() && lantern.Valid()
      ensures Valid()
      ensures this.spring == spring && this.lantern == lantern && this.clipboard == clipboard
      ensures festival == Festivals[0] && categoryList == spring.categories
      ensures category == spring.categories[0] && currentPage == 0
      ensures prevDisabled && !nextDisabled && pageLabel == "第1页/共2页"
    {
      this.spring := spring;
      this.lantern := lantern;
      this.clipboard := clipboard;
      festival := Festivals[0];
      category := spring.categories[0];
      currentPage := 0;
      prevDisabled := true;
      pageLabel := "第1页/共2页";
      nextDisabled := false;
      new;
      assert Decimal(1) == "1" && Decimal(2) == "2";
      UpdateCategoryList();
      ShowCurrentPage();
    }

    method UpdateCategoryList()
      modifies this`categoryList
      ensures categoryList == CurrentTable().categories
    {
      if festival == Spring {
        categoryList := spring.categories;
      } else {
        categoryList := lantern.categories;
      }
    }

    /** The list part of `show_current_page`: the rows become the current
        page of the current category. A category missing from the table
        raises a KeyError in the source, hence the precondition. */
    method ShowCurrentPage()
      requires category in CurrentTable().greetings && currentPage >= 0
      modifies this`shown
      ensures shown == PageItems(CurrentTable().greetings[category], currentPage)
    {
      var blessings := CurrentTable().greetings[category];
      var start := currentPage * PageSize;
      var end := Min(start + PageSize, |blessings|);
      shown := PySlice(blessings, start, end);
    }

    method UpdatePageButtons()
      requires currentPage >= 0
      modifies this`prevDisabled, this`nextDisabled, this`pageLabel
      ensures prevDisabled <==> currentPage == 0
      ensures nextDisabled <==> currentPage == totalPages - 1
      ensures pageLabel == PageLabel(currentPage + 1, totalPages)
    {
      prevDisabled := currentPage == 0;
      nextDisabled := currentPage == totalPages - 1;
      pageLabel := PageLabel(currentPage + 1, totalPages);
    }

    method SwitchFestival(f: string)
      requires Valid()
      modifies this
      ensures Valid()
      ensures f == old(festival) ==> unchanged(this)
      ensures f != old(festival) ==>
        && festival == f
        && categoryList == CurrentTable().categories
        && category == categoryList[0]
        && currentPage == 0 && prevDisabled && !nextDisabled
      ensures clipboard == old(clipboard)
    {
      if f == festival {
        return;
      }
      festival := f;
      UpdateCategoryList();
      category := categoryList[0];
      currentPage := 0;
      UpdatePageButtons();
      ShowCurrentPage();
    }

    /** The category spinner's handler; the spinner only offers the current
        festival's categories. */
    method OnCategoryChange(text: string)
      requires Valid() && text in CurrentTable().greetings
      modifies this
      ensures Valid()
      ensures category == text && currentPage == 0 && prevDisabled && !nextDisabled
      ensures festival == old(festival) && categoryList == old(categoryList)
      ensures clipboard == old(clipboard)
    {
      category := text;
      currentPage := 0;
      UpdatePageButtons();
      ShowCurrentPage();
    }

    method PrevPage()
      requires Valid()
      modifies this
      ensures Valid()
      ensures old(currentPage) > 0 ==> currentPage == old(currentPage) - 1
      ensures old(currentPage) == 0 ==> unchanged(this)
      ensures festival == old(festival) && category == old(category)
      ensures categoryList == old(categoryList) && clipboard == old(clipboard)
    {
      if currentPage > 0 {
        currentPage := currentPage - 1;
        UpdatePageButtons();
        ShowCurrentPage();
      }
    }

    method NextPage()
      requires Valid()
      modifies this
      ensures Valid()
      ensures old(currentPage) < totalPages - 1 ==> currentPage == old(currentPage) + 1
      ensures old(currentPage) == totalPages - 1 ==> unchanged(this)
      ensures festival == old(festival) && category == old(category)
      ensures categoryList == old(categoryList) && clipboard == old(clipboard)
    {
      if currentPage < totalPages - 1 {
        currentPage := currentPage + 1;
        UpdatePageButtons();
        ShowCurrentPage();
      }
    }

    method CopyToClipboard(text: string)
      requires Valid()
      modifies this`clipboard
      ensures Valid()
      ensures clipboard == text
    {
      clipboard := text;
    }

    /** The copy button of row `k`, which was bound to that row's text when
        the page was shown. */
    method CopyRow(k: nat)
      requires Valid() && k < |shown|
      modifies this`clipboard
      ensures Valid()
      ensures clipboard == CurrentTable().greetings[category][currentPage * PageSize + k]
    {
      CopyToClipboard(shown[k]);
    }

    method SendBlessings()
      requires Valid()
      modifies this`clipboard
      ensures Valid()
      ensures clipboard == PageText()
    {
      var blessings := CurrentTable().greetings[category];
      var start := currentPage * PageSize;
      var end := Min(start + PageSize, |blessings|);
      var pageItems := PySlice(blessings, start, end);
      clipboard := Join(Separator, pageItems);
    }

    /** Without the platform share service (`share_available` false) the page
        text goes to the clipboard; with it, the text goes to the platform's
        share chooser, which this model does not follow, and the clipboard is
        left alone. */
    method ShareBlessings(shareAvailable: bool)
      requires Valid()
      modifies this`clipboard
      ensures Valid()
      ensures !shareAvailable ==> clipboard == PageText()
      ensures shareAvailable ==> clipboard == old(clipboard)
    {
      var blessings := CurrentTable().greetings[category];
      var start := currentPage * PageSize;
      var end := Min(start + PageSize, |blessings|);
      var pageItems := PySlice(blessings, start, end);
      var fullText := Join(Separator, pageItems);
      if !shareAvailable {
        clipboard := fullText;
      }
    }
  }
}
