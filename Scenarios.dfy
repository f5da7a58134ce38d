/**
 * Runs of the screen from a fresh view model, stated as client methods: each
 * one drives the controller through a sequence of events and says what the
 * user ends up with. Page contents are parameters.
 */
module Scenarios {
  import opened Wrappers
  import opened LaunchErrors
  import opened Launches
  import opened LaunchFilter
  import opened ViewModel
  import opened ViewController
  import opened NetworkManager

  /** A fresh screen whose initial load has brought `first`. */
  method LoadedScreen(first: LaunchDocs) returns (vm: MainViewModel, vc: MainViewController, initial: PendingFetch)
    ensures fresh(vm) && fresh(vc) && vc.viewModel == vm && vc.Valid()
    ensures initial == PendingFetch(1, None, PresentErrorAlert)
    ensures vm.page == 1 && !vm.isLoadingMoreLaunches && !vm.isFiltering
    ensures vm.launchDetails == first.docs && vm.displayed == first.docs
    ensures vc.alerts == []
  {
    vm := new MainViewModel();
    vc := new MainViewController(vm);
    initial := vc.ViewDidLoad();
    vc.LaunchFetchCompleted(initial, Success(Some(first)));
  }

  /**
   * The initial load and the first drag to the bottom both request page 1.
   * When the server answers both with the same records, every launch of
   * page 1 is in the list twice, as unequal values with equal fields.
   */
  method InitialLoadThenScroll(records: seq<LaunchRecord>, firstId: nat, laterId: nat)
    returns (initial: PendingFetch, scrolled: Option<PendingFetch>, launches: seq<Launch>)
    requires firstId + |records| <= laterId
    ensures scrolled.Some? && initial.page == 1 && scrolled.value.page == 1
    ensures launches == Stamp(records, firstId) + Stamp(records, laterId)
    ensures |launches| == 2 * |records|
    ensures forall i :: 0 <= i < |records| ==>
      Fields(launches[i]) == Fields(launches[i + |records|]) && launches[i] != launches[i + |records|]
  {
    var first, again := LaunchDocs(Stamp(records, firstId)), LaunchDocs(Stamp(records, laterId));
    var vm, vc;
    vm, vc, initial := LoadedScreen(first);
    scrolled := vc.ScrollViewDidEndDragging(true);
    vc.LaunchFetchCompleted(scrolled.value, Success(Some(again)));
    launches := vm.launchDetails;
    RedecodedPageAppended(records, firstId, laterId);
  }

  /** With the initial load advancing the counter, the first drag requests page 2. */
  method InitialLoadThenScrollAdvancing(first: LaunchDocs)
    returns (initial: PendingFetch, scrolled: Option<PendingFetch>)
    ensures scrolled.Some? && initial.page == 1 && scrolled.value.page == 2
  {
    var vm := new MainViewModel();
    var vc := new MainViewController(vm);
    initial := vc.ViewDidLoadAdvancingPage();
    vc.LaunchFetchCompleted(initial, Success(Some(first)));
    scrolled := vc.ScrollViewDidEndDragging(true);
  }

  /**
   * A success without a page leaves the guard up, so no drag fetches again
   * until a refresh's fetch completes (refresh ignores the guard). The
   * concrete network manager never reports such a success
   * (`LaunchFetchSuccessCarriesPage`); the view model handles it all the same.
   */
  method NilPageBlocksPaging() returns (scrolled: Option<PendingFetch>, loading: bool, page: int)
    ensures scrolled.None? && loading && page == 1
  {
    var vm := new MainViewModel();
    var vc := new MainViewController(vm);
    var initial := vc.ViewDidLoad();
    vc.LaunchFetchCompleted(initial, Success(None));
    scrolled := vc.ScrollViewDidEndDragging(true);
    loading, page := vm.isLoadingMoreLaunches, vm.page;
  }

  /** A failed first page leaves the list empty, lowers the guard, keeps the counter, and shows the message once. */
  method FailedFirstPage(error: LaunchError) returns (launches: seq<Launch>, loading: bool, page: int, alerts: seq<string>)
    ensures launches == [] && !loading && page == 1 && alerts == [RawValue(error)]
  {
    var vm := new MainViewModel();
    var vc := new MainViewController(vm);
    var initial := vc.ViewDidLoad();
    assert vm.launchDetails == [] && vm.page == 1 && vc.alerts == [] && initial.completion == PresentErrorAlert;
    vc.LaunchFetchCompleted(initial, Failure(error));
    launches, loading, page, alerts := vm.launchDetails, vm.isLoadingMoreLaunches, vm.page, vc.alerts;
  }

  /** A failure of a page requested by a drag is never shown. */
  method FailedScrollPageIsSilent(first: LaunchDocs, error: LaunchError) returns (alerts: seq<string>, launches: seq<Launch>)
    ensures alerts == [] && launches == first.docs
  {
    var vm, vc, _ := LoadedScreen(first);
    var scrolled := vc.ScrollViewDidEndDragging(true);
    vc.LaunchFetchCompleted(scrolled.value, Failure(error));
    alerts, launches := vc.alerts, vm.launchDetails;
  }

  /**
   * Two pages fetched, by the initial load and by a drag, then both filters
   * chosen in turn: the list holds both pages in fetch order, and each filter
   * shows the successful launches sorted its way.
   */
  method TwoPagesThenFilter(page1: LaunchDocs, page2: LaunchDocs)
    returns (all: seq<Launch>, ascending: seq<Launch>, descending: seq<Launch>)
    ensures all == page1.docs + page2.docs
    ensures SortedBy(Asc, ascending) && multiset(ascending) == multiset(SuccessfulLaunches(all))
    ensures SortedBy(Desc, descending) && multiset(descending) == multiset(SuccessfulLaunches(all))
  {
    var vm, vc, _ := LoadedScreen(page1);
    var scrolled := vc.ScrollViewDidEndDragging(true);
    assert scrolled.Some? && vm.launchDetails == page1.docs;
    vc.LaunchFetchCompleted(scrolled.value, Success(Some(page2)));
    all := vm.launchDetails;
    assert all == page1.docs + page2.docs;
    vc.FilterButtonTapped(Ascending);
    ascending := vm.displayed;
    assert vm.launchDetails == all && vm.filteredLaunchDetails == SuccessfulLaunches(all);
    assert SortedBy(Asc, ascending) && multiset(ascending) == multiset(SuccessfulLaunches(all));
    vc.FilterButtonTapped(Descending);
    descending := vm.displayed;
    assert vm.launchDetails == all && vm.filteredLaunchDetails == SuccessfulLaunches(all);
  }

  /** Of a successful, a failed and a successful launch, the filter keeps the first and the last. */
  lemma SuccessfulOfThree(l1: Launch, l2: Launch, l3: Launch)
    requires l1.success == Some(true) && l2.success == Some(false) && l3.success == Some(true)
    ensures SuccessfulLaunches([l1, l2] + [l3]) == [l1, l3]
  {
    SuccessfulLaunchesAppend([l1, l2], [l3]);
    SuccessfulLaunchesAppend([l1], [l2]);
    assert [l1] + [l2] == [l1, l2];
    assert SuccessfulLaunches([l1]) == [l1] by { assert [l1][1..] == []; }
    assert SuccessfulLaunches([l2]) == [] by { assert [l2][1..] == []; }
    assert SuccessfulLaunches([l3]) == [l3] by { assert [l3][1..] == []; }
  }

  /**
   * The outcome of `TwoPagesThenFilter` when the first page holds a
   * successful launch `l1` and a failed one `l2`, and the second page a
   * successful launch `l3` dated before `l1`: ascending shows `l3` then `l1`,
   * descending `l1` then `l3`.
   */
  lemma TwoPagesThenFilterOutcome(l1: Launch, l2: Launch, l3: Launch, ascending: seq<Launch>, descending: seq<Launch>)
    requires l1.success == Some(true) && l2.success == Some(false) && l3.success == Some(true)
    requires DateLess(l3.dateUtc, l1.dateUtc)
    requires SortedBy(Asc, ascending) && multiset(ascending) == multiset(SuccessfulLaunches([l1, l2] + [l3]))
    requires SortedBy(Desc, descending) && multiset(descending) == multiset(SuccessfulLaunches([l1, l2] + [l3]))
    ensures ascending == [l3, l1] && descending == [l1, l3]
  {
    SuccessfulOfThree(l1, l2, l3);
    DateLessTrichotomy(l3.dateUtc, l1.dateUtc);
    assert multiset([l1, l3]) == multiset{l3, l1};
    SortedPairUnique(Asc, ascending, l3, l1);
    SortedPairUnique(Desc, descending, l1, l3);
  }

  /**
   * While filtering, a page that arrives from a drag is appended but not
   * shown: the display keeps the filtered list it had.
   */
  method FilterThenScrollPage(first: LaunchDocs, next: LaunchDocs)
    returns (before: seq<Launch>, after: seq<Launch>, launches: seq<Launch>)
    ensures after == before
    ensures launches == first.docs + next.docs
  {
    var vm, vc, _ := LoadedScreen(first);
    vc.FilterButtonTapped(Ascending);
    assert vm.isFiltering && !vm.isLoadingMoreLaunches;
    before := vm.displayed;
    var scrolled := vc.ScrollViewDidEndDragging(true);
    assert scrolled.Some? && scrolled.value.filterType.None? && vm.isFiltering && vm.displayed == before;
    vc.LaunchFetchCompleted(scrolled.value, Success(Some(next)));
    after, launches := vm.displayed, vm.launchDetails;
  }

  /**
   * With a failed launch fetched before a successful one and the ascending
   * filter on, the first row shows the successful launch but selecting it
   * opens the failed launch's article.
   */
  method SelectWhileFiltering(failed: Launch, succeeded: Launch)
    returns (shown: Launch, link: Option<string>, intended: Option<string>)
    requires failed.success == Some(false) && succeeded.success == Some(true)
    requires failed.links.wikipedia.Some? && succeeded.links.wikipedia.Some?
    requires failed.links.wikipedia != succeeded.links.wikipedia
    ensures shown == succeeded
    ensures link == failed.links.wikipedia && intended == succeeded.links.wikipedia
    ensures link != shown.links.wikipedia
  {
    var vm, vc, _ := LoadedScreen(LaunchDocs([failed, succeeded]));
    assert SuccessfulLaunches(vm.launchDetails) == [succeeded];
    vc.FilterButtonTapped(Ascending);
    assert multiset(vm.displayed) == multiset{succeeded};
    assert |vm.displayed| == 1 && vm.displayed[0] in multiset(vm.displayed);
    shown := vm.displayed[0];
    link := vc.DidSelectItemAt(0, _ => true);
    intended := vc.DidSelectDisplayedItemAt(0, _ => true);
  }

  /**
   * Two image requests for the same URL before either finishes both start a
   * task; when both tasks succeed each caller receives the image, the cache
   * holds one entry for the URL, and a later request is answered from it.
   */
  method OverlappingImageFetches(url: string, reply: Reply, decode: Bytes -> Option<Image>)
    returns (first: ImageLookup, second: ImageLookup, firstImage: Option<Image>, secondImage: Option<Image>,
             keys: set<string>, later: ImageLookup)
    requires Accepted(reply, decode)
    ensures first == second == TaskStarted(GetRequest(url))
    ensures firstImage == secondImage == Some(Decoded(reply, decode))
    ensures keys == {url}
    ensures later == CacheHit(Decoded(reply, decode))
  {
    var manager := new ConcreteNetworkManager();
    first := manager.SetAndCacheLaunchImage(url, _ => true);
    second := manager.SetAndCacheLaunchImage(url, _ => true);
    firstImage := manager.ImageTaskCompleted(url, reply, decode);
    secondImage := manager.ImageTaskCompleted(url, reply, decode);
    keys := manager.cache.Keys;
    later := manager.SetAndCacheLaunchImage(url, _ => true);
  }
}
