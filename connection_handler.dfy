/** The server's registry of player names (`ConnectionHandler`): a dictionary
    from client id to the name the client sent when it connected.

    Client ids are `ulong` in the source and `nat` here. Decoding the JSON
    payload is not modelled: the approval request carries the decoded name.
    The random spawn point is drawn by the caller and passed in. */
module Connections {
  import opened Wrappers

  /** The name reported for a client the registry does not know. */
  const UnknownName: string := "Unknown Survivor"

  /** The name the host registers when no name was saved. */
  const DefaultHostName: string := "Host"

  /** A connection request, after its payload has been decoded. */
  datatype ApprovalRequest = ApprovalRequest(clientNetworkId: nat, playerName: string)

  /** The approval decision and where the player object appears. */
  datatype ApprovalResponse = ApprovalResponse(approved: bool, createPlayerObject: bool, position: (real, real, real))

  class ConnectionHandler {
    var clientNames: map<nat, string>
    const spawnRadius: real

    constructor (spawnRadius: real)
      ensures clientNames == map[] && this.spawnRadius == spawnRadius
    {
      clientNames := map[];
      this.spawnRadius := spawnRadius;
    }

    /** Record the client's name, replacing any earlier one, and approve the connection
        with a player object at `insideUnitCircle` scaled by the spawn radius. */
    method ApprovalCheck(request: ApprovalRequest, insideUnitCircle: (real, real)) returns (response: ApprovalResponse)
      modifies this`clientNames
      ensures clientNames == old(clientNames)[request.clientNetworkId := request.playerName]
      ensures GetPlayerName(request.clientNetworkId) == request.playerName
      ensures forall id :: id != request.clientNetworkId ==> GetPlayerName(id) == old(GetPlayerName(id))
      ensures response.approved && response.createPlayerObject
      ensures response.position == (insideUnitCircle.0 * spawnRadius, insideUnitCircle.1 * spawnRadius, 0.0)
    {
      if request.clientNetworkId in clientNames {
        clientNames := clientNames[request.clientNetworkId := request.playerName];
      } else {
        clientNames := clientNames[request.clientNetworkId := request.playerName];
      }
      var spawnPos := (insideUnitCircle.0 * spawnRadius, insideUnitCircle.1 * spawnRadius, 0.0);
      response := ApprovalResponse(true, true, spawnPos);
    }

    /** The stored name of a client, or "Unknown Survivor". */
    function GetPlayerName(clientId: nat): (name: string)
      reads this
      ensures clientId in clientNames ==> name == clientNames[clientId]
      ensures clientId !in clientNames ==> name == UnknownName
    {
      if clientId in clientNames then clientNames[clientId] else UnknownName
    }

    /** The host (client 0) registers itself, under its saved name or "Host", unless it
        is registered already. `savedName` is the stored player name, if there is one. */
    method OnServerStarted(savedName: Option<string>)
      modifies this`clientNames
      ensures 0 in old(clientNames) ==> clientNames == old(clientNames)
      ensures 0 !in old(clientNames) ==>
        clientNames == old(clientNames)[0 := if savedName.Some? then savedName.value else DefaultHostName]
      ensures 0 in clientNames
    {
      if 0 !in clientNames {
        var name := if savedName.Some? then savedName.value else DefaultHostName;
        clientNames := clientNames[0 := name];
      }
    }

    /** Forget a disconnected client; other clients keep their names. */
    method OnClientDisconnect(clientId: nat)
      modifies this`clientNames
      ensures clientNames == old(clientNames) - {clientId}
      ensures GetPlayerName(clientId) == UnknownName
      ensures forall id :: id != clientId ==> GetPlayerName(id) == old(GetPlayerName(id))
    {
      if clientId in clientNames {
        clientNames := clientNames - {clientId};
      }
    }
  }
}
