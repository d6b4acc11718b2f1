/**
 * The root page of src/pages/Index.tsx: a start-up loading screen, then the
 * daily mood check-in unless today's check-in is already stored, then the
 * dashboard.
 */
module IndexPage {
  import opened Wrappers

  /** The three screens the page can show. */
  datatype Screen = LoadingScreen | ScannerScreen | DashboardScreen

  /** The page's state; `lastMoodScan` is the stored "lastMoodScan" entry, a date string. */
  class Page {
    var showScanner: bool
    var isLoading: bool
    var lastMoodScan: Option<string>

    /** First render: loading, with the check-in requested. */
    constructor (stored: Option<string>)
      ensures showScanner && isLoading && lastMoodScan == stored
    {
      showScanner := true;
      isLoading := true;
      lastMoodScan := stored;
    }

    /** The screen on show: loading before anything else, then the check-in, then the dashboard. */
    function CurrentScreen(): (s: Screen)
      reads this
      ensures s == LoadingScreen <==> isLoading
      ensures s == ScannerScreen <==> !isLoading && showScanner
      ensures s == DashboardScreen <==> !isLoading && !showScanner
    {
      if isLoading then LoadingScreen else if showScanner then ScannerScreen else DashboardScreen
    }

    /** The mount effect: the check-in is skipped when the stored date is today's date string. */
    method Mount(today: string)
      modifies this`showScanner
      ensures showScanner == (old(showScanner) && lastMoodScan != Some(today))
    {
      if lastMoodScan == Some(today) {
        showScanner := false;
      }
    }

    /** The start-up timer firing ends the loading screen. */
    method LoadTimerFires()
      modifies this`isLoading
      ensures !isLoading
    {
      isLoading := false;
    }

    /** `handleScanComplete`: stores today's date string and hides the check-in. */
    method HandleScanComplete(today: string)
      modifies this`lastMoodScan, this`showScanner
      ensures lastMoodScan == Some(today) && !showScanner
    {
      lastMoodScan := Some(today);
      showScanner := false;
    }
  }

  /**
   * A fresh start of the app on the day `today`: after the mount effect and
   * the start-up timer, the check-in shows unless storage already records a
   * check-in today.
   */
  method StartOfDay(stored: Option<string>, today: string) returns (screen: Screen)
    ensures screen == if stored == Some(today) then DashboardScreen else ScannerScreen
  {
    var page := new Page(stored);
    page.Mount(today);
    page.LoadTimerFires();
    screen := page.CurrentScreen();
  }

  /** Completing the check-in and starting again the same day goes straight to the dashboard. */
  method CheckInThenRestart(stored: Option<string>, today: string) returns (screen: Screen)
    ensures screen == DashboardScreen
  {
    var page := new Page(stored);
    page.Mount(today);
    page.LoadTimerFires();
    page.HandleScanComplete(today);
    var again := new Page(page.lastMoodScan);
    again.Mount(today);
    again.LoadTimerFires();
    screen := again.CurrentScreen();
  }
}
