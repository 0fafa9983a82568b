/**
 The one edge between the view model and the watch controller: the activity
 collects every UI state and starts the service on its directory when
 monitoring is on, stops it otherwise, and does nothing before the service is
 bound.
 */
module Activity {
  import opened Wrappers
  import opened Service
  import opened ViewModel

  method OnUiState(service: FileMonitoringService?, state: MainUiState, onFileChange: Callback)
    requires service != null ==> service.Valid()
    modifies if service != null then {service} else {}, if service != null then service.fileObserver else null
    ensures service != null ==> service.Valid()
    ensures service != null ==> service.fileObserver == old(service.fileObserver) || fresh(service.fileObserver)
    ensures service != null ==> (service.MonitoringNow() <==> state.monitoringNow)
    ensures service != null && state.monitoringNow ==> service.monitoredFile == Some(state.monitoredDir)
    ensures service != null && !state.monitoringNow ==> service.Idle() && service.fileObserver == old(service.fileObserver)
    ensures service != null && state.monitoringNow ==> fresh(service.fileObserver) && service.fileObserver.onFileChange == onFileChange
    ensures service != null ==> service.foregroundUpdates == old(service.foregroundUpdates) + [if state.monitoringNow then FileMonitorEnabled else FileMonitorDisabled]
    ensures service != null ==> service.created == old(service.created) + (if state.monitoringNow then {service.fileObserver} else {})
  {
    if service != null {
      if state.monitoringNow {
        service.Start(state.monitoredDir, onFileChange);
      } else {
        service.Stop();
      }
    }
  }

  /** Toggling monitoring on, off and on again takes the service idle, watching, idle, watching. */
  method ToggleScenario(service: FileMonitoringService, vm: MainViewModel, cb: Callback)
    returns (afterOn: Option<File>, afterOff: Option<File>, afterOnAgain: Option<File>)
    requires service.Valid() && service.Idle()
    modifies service, service.fileObserver, vm
    ensures afterOn == Some(vm.uiState.monitoredDir) && afterOff == None
    ensures afterOnAgain == Some(vm.uiState.monitoredDir)
    ensures service.Valid() && service.monitoredFile == afterOnAgain
  {
    vm.EnableMonitoring(true);
    OnUiState(service, vm.uiState, cb);
    afterOn := service.monitoredFile;
    vm.EnableMonitoring(false);
    OnUiState(service, vm.uiState, cb);
    afterOff := service.monitoredFile;
    vm.EnableMonitoring(true);
    OnUiState(service, vm.uiState, cb);
    afterOnAgain := service.monitoredFile;
  }
}
