/** The two finite state machines of the server and their transition tables. */
module Fsm {

  datatype Option<+T> = None | Some(value: T)

  /** State of the whole server. */
  datatype ServerFsm =
    | Disconnected
    | ControlConnected
    | Connected
    | Configuring
    | Ready
    | Acquiring
    | Finalizing
    | Error

  datatype ServerEvent =
    | ControlConnectionSucceeded
    | ControlConnectionFailed
    | ControlConnectionLost
    | AcquisitionConnectionSucceeded
    | AcquisitionConnectionFailed
    | AcquisitionConnectionLost
    | DisconnectRequested
    | ConfigurationStarted
    | ConfigurationSucceeded
    | ConfigurationFailed
    | AcquisitionStarted
    | StopRequested
    | ReceiverCompleted
    | FinalizationSucceeded
    | FinalizationFailed
    | FatalError
    | RecoveryStarted
    | RecoverySucceeded
    | RecoveryFailed

  /** State of one registered client. */
  datatype ClientFsm =
    | CDisconnected
    | CConnected
    | CConfiguring
    | CReady
    | CAcquiring
    | CFinalizing
    | CError

  datatype ClientEvent =
    | ConnectSucceeded
    | ClientDisconnected
    | ClientConfigurationStarted
    | ClientConfigurationSucceeded
    | ClientConfigurationFailed
    | ClientAcquisitionStarted
    | ClientStopRequested
    | ClientReceiverCompleted
    | AcquisitionPlaneLost
    | ClientFinalizationSucceeded
    | ClientFinalizationFailed
    | ClientFatalError

  /** TRANSITION_TABLE: a missing entry is a refused event. */
  function ServerTable(state: ServerFsm, event: ServerEvent): Option<ServerFsm> {
    match (state, event)
    case (Disconnected, ControlConnectionSucceeded) => Some(ControlConnected)
    case (Disconnected, ControlConnectionFailed) => Some(Disconnected)
    case (Disconnected, AcquisitionConnectionFailed) => Some(Disconnected)
    case (Disconnected, DisconnectRequested) => Some(Disconnected)
    case (Disconnected, FatalError) => Some(Error)

    case (ControlConnected, AcquisitionConnectionSucceeded) => Some(Connected)
    case (ControlConnected, AcquisitionConnectionFailed) => Some(ControlConnected)
    case (ControlConnected, ControlConnectionLost) => Some(Disconnected)
    case (ControlConnected, DisconnectRequested) => Some(Disconnected)
    case (ControlConnected, FatalError) => Some(Error)

    case (Connected, ConfigurationStarted) => Some(Configuring)
    case (Connected, ControlConnectionLost) => Some(Disconnected)
    case (Connected, AcquisitionConnectionLost) => Some(ControlConnected)
    case (Connected, DisconnectRequested) => Some(Disconnected)
    case (Connected, FatalError) => Some(Error)

    case (Configuring, ConfigurationSucceeded) => Some(Ready)
    case (Configuring, ConfigurationFailed) => Some(Connected)
    case (Configuring, RecoverySucceeded) => Some(Ready)
    case (Configuring, RecoveryFailed) => Some(Error)
    case (Configuring, ControlConnectionLost) => Some(Error)
    case (Configuring, AcquisitionConnectionLost) => Some(Error)
    case (Configuring, DisconnectRequested) => Some(Disconnected)
    case (Configuring, FatalError) => Some(Error)

    case (Ready, ConfigurationStarted) => Some(Configuring)
    case (Ready, AcquisitionStarted) => Some(Acquiring)
    case (Ready, ControlConnectionLost) => Some(Disconnected)
    case (Ready, AcquisitionConnectionLost) => Some(ControlConnected)
    case (Ready, DisconnectRequested) => Some(Disconnected)
    case (Ready, FatalError) => Some(Error)

    case (Acquiring, StopRequested) => Some(Finalizing)
    case (Acquiring, ReceiverCompleted) => Some(Finalizing)
    case (Acquiring, DisconnectRequested) => Some(Finalizing)
    case (Acquiring, ControlConnectionLost) => Some(Finalizing)
    case (Acquiring, AcquisitionConnectionLost) => Some(Finalizing)
    case (Acquiring, FatalError) => Some(Error)

    case (Finalizing, FinalizationSucceeded) => Some(Ready)
    case (Finalizing, FinalizationFailed) => Some(Ready)
    case (Finalizing, DisconnectRequested) => Some(Finalizing)
    case (Finalizing, FatalError) => Some(Error)

    case (Error, RecoveryStarted) => Some(Configuring)
    case (Error, DisconnectRequested) => Some(Disconnected)
    case (Error, FatalError) => Some(Error)

    case (_, _) => None
  }

  /** TRANSITION_TABLE_CLIENT, with FATAL_ERROR added for every state. */
  function ClientTable(state: ClientFsm, event: ClientEvent): Option<ClientFsm> {
    match (state, event)
    case (_, ClientFatalError) => Some(CError)

    case (CDisconnected, ConnectSucceeded) => Some(CConnected)
    case (CConnected, ClientConfigurationStarted) => Some(CConfiguring)
    case (CConfiguring, ClientConfigurationSucceeded) => Some(CReady)
    case (CConfiguring, ClientConfigurationFailed) => Some(CError)
    case (CReady, ClientConfigurationStarted) => Some(CConfiguring)
    case (CReady, ClientAcquisitionStarted) => Some(CAcquiring)
    case (CAcquiring, ClientStopRequested) => Some(CFinalizing)
    case (CAcquiring, ClientReceiverCompleted) => Some(CFinalizing)
    case (CFinalizing, ClientFinalizationSucceeded) => Some(CReady)
    case (CFinalizing, ClientFinalizationFailed) => Some(CError)

    case (CConnected, ClientDisconnected) => Some(CDisconnected)
    case (CConfiguring, ClientDisconnected) => Some(CDisconnected)
    case (CReady, ClientDisconnected) => Some(CDisconnected)
    case (CAcquiring, ClientDisconnected) => Some(CError)
    case (CFinalizing, ClientDisconnected) => Some(CError)
    case (CError, ClientDisconnected) => Some(CDisconnected)

    case (CConnected, AcquisitionPlaneLost) => Some(CConnected)
    case (CConfiguring, AcquisitionPlaneLost) => Some(CError)
    case (CReady, AcquisitionPlaneLost) => Some(CConnected)
    case (CAcquiring, AcquisitionPlaneLost) => Some(CError)
    case (CFinalizing, AcquisitionPlaneLost) => Some(CError)
    case (CError, AcquisitionPlaneLost) => Some(CError)

    case (_, _) => None
  }

  /** Targets a caller may request for the end of a finalization. */
  predicate AllowedTerminal(state: ServerFsm) {
    state in {Ready, Disconnected, ControlConnected, Connected, Error}
  }
}
