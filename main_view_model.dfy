/**
 The UI state container: `MainUiState` is an immutable record, and
 `MainViewModel` holds the current one and replaces it with a copy that
 differs in one field for each setter.
 */
module ViewModel {

  datatype MainUiState = MainUiState(
    serviceConnected: bool,
    monitoringNow: bool,
    monitoredDir: string,
    permissionRationale: bool)

  /** `MainUiState()` with every default argument. */
  const DefaultUiState: MainUiState := MainUiState(false, false, "/", false)

  /** `it.copy(serviceConnected = true)`. */
  function ConnectService(s: MainUiState): (r: MainUiState)
    ensures r.serviceConnected
    ensures r.monitoringNow == s.monitoringNow && r.monitoredDir == s.monitoredDir
    ensures r.permissionRationale == s.permissionRationale
  {
    s.(serviceConnected := true)
  }

  /** `it.copy(monitoringNow = enable)`. */
  function WithMonitoring(s: MainUiState, enable: bool): (r: MainUiState)
    ensures r.monitoringNow == enable
    ensures r.serviceConnected == s.serviceConnected && r.monitoredDir == s.monitoredDir
    ensures r.permissionRationale == s.permissionRationale
  {
    s.(monitoringNow := enable)
  }

  /** `it.copy(monitoredDir = newValue)`. */
  function WithMonitoredDir(s: MainUiState, newValue: string): (r: MainUiState)
    ensures r.monitoredDir == newValue
    ensures r.serviceConnected == s.serviceConnected && r.monitoringNow == s.monitoringNow
    ensures r.permissionRationale == s.permissionRationale
  {
    s.(monitoredDir := newValue)
  }

  /** `it.copy(permissionRationale = enable)`. */
  function WithPermissionRationale(s: MainUiState, enable: bool): (r: MainUiState)
    ensures r.permissionRationale == enable
    ensures r.serviceConnected == s.serviceConnected && r.monitoringNow == s.monitoringNow
    ensures r.monitoredDir == s.monitoredDir
  {
    s.(permissionRationale := enable)
  }

  /** Applying a setter a second time with the same argument changes nothing. */
  lemma SettersIdempotent(s: MainUiState, b: bool, dir: string)
    ensures ConnectService(ConnectService(s)) == ConnectService(s)
    ensures WithMonitoring(WithMonitoring(s, b), b) == WithMonitoring(s, b)
    ensures WithMonitoredDir(WithMonitoredDir(s, dir), dir) == WithMonitoredDir(s, dir)
    ensures WithPermissionRationale(WithPermissionRationale(s, b), b) == WithPermissionRationale(s, b)
  {
  }

  /** A later setter on the same field overrides an earlier one. */
  lemma LastSetterWins(s: MainUiState, b: bool, c: bool, dir: string, dir': string)
    ensures WithMonitoring(WithMonitoring(s, b), c) == WithMonitoring(s, c)
    ensures WithMonitoredDir(WithMonitoredDir(s, dir), dir') == WithMonitoredDir(s, dir')
    ensures WithPermissionRationale(WithPermissionRationale(s, b), c) == WithPermissionRationale(s, c)
  {
  }

  /** Setters on different fields commute. */
  lemma SettersCommute(s: MainUiState, m: bool, dir: string, p: bool)
    ensures WithMonitoring(ConnectService(s), m) == ConnectService(WithMonitoring(s, m))
    ensures WithMonitoredDir(ConnectService(s), dir) == ConnectService(WithMonitoredDir(s, dir))
    ensures WithPermissionRationale(ConnectService(s), p) == ConnectService(WithPermissionRationale(s, p))
    ensures WithMonitoredDir(WithMonitoring(s, m), dir) == WithMonitoring(WithMonitoredDir(s, dir), m)
    ensures WithPermissionRationale(WithMonitoring(s, m), p) == WithMonitoring(WithPermissionRationale(s, p), m)
    ensures WithPermissionRationale(WithMonitoredDir(s, dir), p) == WithMonitoredDir(WithPermissionRationale(s, p), dir)
  {
  }

  class MainViewModel {
    /** The value of `_uiState`, which `uiState` exposes read-only. */
    var uiState: MainUiState

    constructor ()
      ensures uiState == DefaultUiState
    {
      uiState := DefaultUiState;
    }

    method ServiceConnected()
      modifies this
      ensures uiState == ConnectService(old(uiState))
    {
      uiState := ConnectService(uiState);
    }

    method EnableMonitoring(enable: bool)
      modifies this
      ensures uiState == WithMonitoring(old(uiState), enable)
    {
      uiState := WithMonitoring(uiState, enable);
    }

    method OnMonitoredDirChange(newValue: string)
      modifies this
      ensures uiState == WithMonitoredDir(old(uiState), newValue)
    {
      uiState := WithMonitoredDir(uiState, newValue);
    }

    method ShowPermissionRationale(enable: bool)
      modifies this
      ensures uiState == WithPermissionRationale(old(uiState), enable)
    {
      uiState := WithPermissionRationale(uiState, enable);
    }
  }

  /** The `serviceConnected` unit test: a fresh view model, once connected, reads back connected. */
  method ServiceConnectedScenario() returns (vm: MainViewModel)
    ensures vm.uiState == DefaultUiState.(serviceConnected := true)
  {
    vm := new MainViewModel();
    vm.ServiceConnected();
  }

  /** The `enableMonitoring` unit test: enabling then disabling reads back true, then false. */
  method EnableMonitoringScenario() returns (afterEnable: bool, afterDisable: bool)
    ensures afterEnable && !afterDisable
  {
    var vm := new MainViewModel();
    vm.EnableMonitoring(true);
    afterEnable := vm.uiState.monitoringNow;
    vm.EnableMonitoring(false);
    afterDisable := vm.uiState.monitoringNow;
  }
}
