/**
 * The client page's session controller: a connected flag, the selected relay
 * server, the stored auto-connect switch and four telemetry counters. The page
 * toggles the connection by hand; while it is connected a once-per-second
 * interval advances the elapsed time and redraws the synthetic throughput and
 * usage figures.
 *
 * There is no connecting state, no remote call and no auto-connect timer on
 * this page; the model has none either.
 */
module Dashboard {
  import TimeFormat
  import opened Wrappers

  /** One entry of the page's fixed server list. */
  datatype Server = Server(id: string, name: string, country: string, flag: string, ping: int, load: int)

  /** The page's hard-coded list of six relay servers, in display order. */
  function Servers(): (r: seq<Server>)
    ensures |r| == 6
    ensures forall i, j :: 0 <= i < j < |r| ==> r[i].id != r[j].id
    ensures forall i :: 0 <= i < |r| ==> r[i].ping >= 0 && 0 <= r[i].load <= 100
  {
    [ Server("1", "Нидерланды", "Amsterdam", "\U{1F1F3}\U{1F1F1}", 12, 45),
      Server("2", "США", "New York", "\U{1F1FA}\U{1F1F8}", 85, 62),
      Server("3", "Германия", "Frankfurt", "\U{1F1E9}\U{1F1EA}", 18, 38),
      Server("4", "Великобритания", "London", "\U{1F1EC}\U{1F1E7}", 25, 51),
      Server("5", "Япония", "Tokyo", "\U{1F1EF}\U{1F1F5}", 156, 29),
      Server("6", "Сингапур", "Singapore", "\U{1F1F8}\U{1F1EC}", 178, 44) ]
  }

  /** `Math.floor(draw * width) + low` for a draw of `Math.random()`, which lies in [0, 1). */
  function Scaled(draw: real, width: nat, low: int): (r: int)
    requires 0.0 <= draw < 1.0 && width > 0
    ensures low <= r < low + width
  {
    assert draw * width as real < width as real;
    (draw * width as real).Floor + low
  }

  /** The page's state, one field per `useState` hook. */
  class Dashboard {
    var isConnected: bool
    var selectedServer: Server
    var autoConnect: bool
    var connectionTime: nat
    var downloadSpeed: int
    var uploadSpeed: int
    var dataUsed: real

    /**
     * What every reachable state satisfies: the selection is one of the six
     * servers, usage is never negative, and each speed is either its initial 0
     * or a value a tick can draw.
     */
    ghost predicate Valid()
      reads this
    {
      selectedServer in Servers() &&
      dataUsed >= 0.0 &&
      (downloadSpeed == 0 || 80 <= downloadSpeed <= 99) &&
      (uploadSpeed == 0 || 40 <= uploadSpeed <= 49)
    }

    /** The initial hook values: disconnected, first server, auto-connect on, counters zero. */
    constructor ()
      ensures Valid()
      ensures !isConnected && selectedServer == Servers()[0] && autoConnect
      ensures connectionTime == 0 && downloadSpeed == 0 && uploadSpeed == 0 && dataUsed == 0.0
    {
      isConnected := false;
      selectedServer := Servers()[0];
      autoConnect := true;
      connectionTime := 0;
      downloadSpeed := 0;
      uploadSpeed := 0;
      dataUsed := 0.0;
    }

    /**
     * `toggleConnection`: going online zeroes the elapsed time and the usage;
     * going offline keeps the last figures. Nothing else changes.
     */
    method ToggleConnection()
      requires Valid()
      modifies this
      ensures Valid()
      ensures isConnected == !old(isConnected)
      ensures !old(isConnected) ==> connectionTime == 0 && dataUsed == 0.0
      ensures old(isConnected) ==> connectionTime == old(connectionTime) && dataUsed == old(dataUsed)
      ensures selectedServer == old(selectedServer) && autoConnect == old(autoConnect)
      ensures downloadSpeed == old(downloadSpeed) && uploadSpeed == old(uploadSpeed)
    {
      if !isConnected {
        connectionTime := 0;
        dataUsed := 0.0;
      }
      isConnected := !isConnected;
    }

    /**
     * One second of wall time. The interval exists only while the page is
     * connected, so a disconnected page is left exactly as it was; a connected
     * one runs the interval body with the three `Math.random()` draws given.
     */
    method Tick(downloadDraw: real, uploadDraw: real, usageDraw: real)
      requires Valid()
      requires 0.0 <= downloadDraw < 1.0 && 0.0 <= uploadDraw < 1.0 && 0.0 <= usageDraw < 1.0
      modifies this
      ensures Valid()
      ensures !old(isConnected) ==> unchanged(this)
      ensures old(isConnected) ==>
        connectionTime == old(connectionTime) + 1 &&
        downloadSpeed == Scaled(downloadDraw, 20, 80) &&
        uploadSpeed == Scaled(uploadDraw, 10, 40) &&
        dataUsed == old(dataUsed) + usageDraw * 0.5
      ensures old(isConnected) ==>
        80 <= downloadSpeed <= 99 && 40 <= uploadSpeed <= 49 &&
        old(dataUsed) <= dataUsed < old(dataUsed) + 0.5
      ensures isConnected == old(isConnected) && selectedServer == old(selectedServer)
      ensures autoConnect == old(autoConnect)
    {
      if isConnected {
        connectionTime := connectionTime + 1;
        downloadSpeed := Scaled(downloadDraw, 20, 80);
        uploadSpeed := Scaled(uploadDraw, 10, 40);
        dataUsed := dataUsed + usageDraw * 0.5;
      }
    }

    /**
     * A click on a server row: the clicked entry becomes the selection,
     * whether or not the page is connected. Nothing else changes.
     */
    method SelectServer(server: Server)
      requires Valid()
      requires server in Servers()
      modifies this
      ensures Valid()
      ensures selectedServer == server
      ensures isConnected == old(isConnected) && autoConnect == old(autoConnect)
      ensures connectionTime == old(connectionTime) && dataUsed == old(dataUsed)
      ensures downloadSpeed == old(downloadSpeed) && uploadSpeed == old(uploadSpeed)
    {
      selectedServer := server;
    }

    /** The auto-connect switch: the value is stored and nothing reads it. */
    method SetAutoConnect(enabled: bool)
      requires Valid()
      modifies this
      ensures Valid()
      ensures autoConnect == enabled
      ensures isConnected == old(isConnected) && selectedServer == old(selectedServer)
      ensures connectionTime == old(connectionTime) && dataUsed == old(dataUsed)
      ensures downloadSpeed == old(downloadSpeed) && uploadSpeed == old(uploadSpeed)
    {
      autoConnect := enabled;
    }

    /** The elapsed-time text shown in the statistics card. */
    function ElapsedText(): (t: string)
      reads this
      ensures TimeFormat.ParseTime(t) == Some(connectionTime)
    {
      TimeFormat.FormatTimeRoundTrip(connectionTime);
      TimeFormat.FormatTime(connectionTime)
    }
  }

  /**
   * A session as a user sees it: connect, three seconds pass, disconnect,
   * one more second. The clock shows three seconds and stays there.
   */
  method ConnectForThreeSeconds()
  {
    var page := new Dashboard();
    page.ToggleConnection();
    assert page.isConnected && page.connectionTime == 0;
    page.Tick(0.5, 0.5, 0.5);
    page.Tick(0.0, 0.9, 0.2);
    page.Tick(0.99, 0.0, 0.0);
    assert page.connectionTime == 3 && page.downloadSpeed == 99 && page.uploadSpeed == 40;
    page.ToggleConnection();
    page.Tick(0.5, 0.5, 0.5);
    assert !page.isConnected && page.connectionTime == 3 && page.selectedServer == Servers()[0];
  }
}
