/**
 * The application-level input gate of src/application/input/input_handler.py:
 * one game-over flag in front of shooting and restarting.
 */
module InputHandling {

  import opened Optional
  import opened GameServices

  class InputHandler {
    const gameService: GameService
    var gameOver: bool

    constructor (gameService: GameService)
      ensures this.gameService == gameService && !gameOver
    {
      this.gameService := gameService;
      gameOver := false;
    }

    /** No shot while the game is over; otherwise exactly the service's shoot attempt. */
    method HandleShoot(now: real) returns (fired: bool)
      modifies gameService.weapon`lastFireTime
      ensures gameOver ==> !fired && gameService.weapon.lastFireTime == old(gameService.weapon.lastFireTime)
      ensures !gameOver ==>
                (fired <==> gameService.player.IsAlive() && old(gameService.weapon.CanFire(now))) &&
                gameService.weapon.lastFireTime == if fired then now else old(gameService.weapon.lastFireTime)
    {
      if gameOver {
        return false;
      }
      fired := gameService.HandleShootAttempt(now);
    }

    /** Restarts the game only when it is over, and then clears the flag. */
    method HandleRestart(now: real)
      requires gameService.Valid()
      modifies this`gameOver, gameService`gameStarted, gameService`enemies, gameService`firstWaveStartTime,
               gameService.player`health, gameService.player`kills, gameService.waveManager`currentWave
      ensures gameService.Valid()
      ensures !old(gameOver) ==>
                !gameOver && unchanged(gameService) && unchanged(gameService.player) &&
                gameService.waveManager.currentWave == old(gameService.waveManager.currentWave)
      ensures old(gameOver) ==>
                !gameOver &&
                gameService.CurrentPhase() ==
                  old(gameService.CurrentPhase()).(gameStarted := true, firstWaveStartTime := Some(now)) &&
                gameService.player.health == gameService.player.maxHealth && gameService.player.kills == 0 &&
                gameService.enemies == [] && gameService.waveManager.currentWave == 0
    {
      if gameOver {
        gameService.StartGame(now);
        gameOver := false;
      }
    }

    method SetGameOver(isOver: bool)
      modifies this`gameOver
      ensures gameOver == isOver
    {
      gameOver := isOver;
    }
  }
}
